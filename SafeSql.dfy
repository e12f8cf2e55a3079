/**
 The guard as sql.go runs it: recursive procedures that thread one shared
 Record, return false as soon as a check fails, and write Record.msg once,
 at the failure site.

 Every procedure is proved against the pure walk in module Guard: it
 returns true exactly when the corresponding *Outcome function passes, and
 it leaves in `r.msg` the message of the violation that function reports,
 or the old message when there is no violation or the violation is one of
 the two silent ones (`Recorded`).
 */
module SafeSql {
  import opened SqlParser
  import opened Policy
  import opened Guard

  /** The result record; `msg` is the Msg field. */
  class Record {
    var msg: string

    constructor ()
      ensures msg == ""
    {
      msg := "";
    }
  }

  /** CheckSQL after parsing: a fresh Record, then checkStmt. A statement
      passes with an empty message; a rejected one carries the message of
      the first violation, or "" when that violation is silent. */
  method CheckSql(stmt: Stmt, cfg: Allowlists) returns (ok: bool, msg: string)
    ensures ok <==> StmtOutcome(stmt, cfg).Pass?
    ensures ok ==> msg == ""
    ensures !ok && !Silent(StmtOutcome(stmt, cfg).violation) ==> msg == Message(StmtOutcome(stmt, cfg).violation)
    ensures !ok && Silent(StmtOutcome(stmt, cfg).violation) ==> msg == ""
  {
    var r := new Record();
    ok := CheckStmt(stmt, cfg, r);
    msg := r.msg;
  }

  /** checkStmt */
  method CheckStmt(stmt: Stmt, cfg: Allowlists, r: Record) returns (ok: bool)
    modifies r
    ensures ok <==> StmtOutcome(stmt, cfg).Pass?
    ensures r.msg == Recorded(old(r.msg), StmtOutcome(stmt, cfg))
    decreases stmt
  {
    match stmt
    case NilStmt =>
      ok := true;
    case Select(items, from, where, groupBy, having, orderBy, limit) =>
      ok := CheckSelectExprs(items, cfg, r);
      if ok {
        ok := CheckTableExprs(from, cfg, r);
      }
      if ok && where.Some? {
        ok := CheckExpr(where.value, cfg, r);
      }
      if ok {
        ok := CheckExprs(groupBy, cfg, r);
      }
      if ok && having.Some? {
        ok := CheckExpr(having.value, cfg, r);
      }
      if ok {
        ok := CheckOrderBy(orderBy, cfg, r);
      }
      if ok && limit.Some? {
        ok := CheckExpr(limit.value.offset, cfg, r);
        if ok {
          ok := CheckExpr(limit.value.rowcount, cfg, r);
        }
      }
    case OtherStmt =>
      r.msg := Message(BadStmt);
      ok := false;
  }

  /** checkTableExpr */
  method CheckTableExpr(t: TableExpr, cfg: Allowlists, r: Record) returns (ok: bool)
    modifies r
    ensures ok <==> TableExprOutcome(t, cfg).Pass?
    ensures r.msg == Recorded(old(r.msg), TableExprOutcome(t, cfg))
    decreases t
  {
    match t
    case NilTableExpr =>
      ok := true;
    case AliasedTableExpr(simple) =>
      ok := CheckSimpleTableExpr(simple, cfg, r);
    case ParenTableExpr(exprs) =>
      ok := CheckTableExprs(exprs, cfg, r);
    case JoinTableExpr(left, right, on) =>
      ok := CheckTableExpr(left, cfg, r);
      if ok {
        ok := CheckTableExpr(right, cfg, r);
      }
      if ok {
        ok := CheckExpr(on, cfg, r);
      }
    case OtherTableExpr =>
      r.msg := Message(BadTableExpr);
      ok := false;
  }

  /** The loop of checkStmt over the FROM list, and of checkTableExpr over a
      parenthesised list. */
  method CheckTableExprs(ts: seq<TableExpr>, cfg: Allowlists, r: Record) returns (ok: bool)
    modifies r
    ensures ok <==> TableExprsOutcome(ts, cfg).Pass?
    ensures r.msg == Recorded(old(r.msg), TableExprsOutcome(ts, cfg))
    decreases ts
  {
    var i := 0;
    while i < |ts|
      invariant 0 <= i <= |ts|
      invariant TableExprsOutcome(ts, cfg) == TableExprsOutcome(ts[i..], cfg)
      invariant r.msg == old(r.msg)
    {
      assert ts[i..][1..] == ts[i + 1..];
      ok := CheckTableExpr(ts[i], cfg, r);
      if !ok {
        return;
      }
      i := i + 1;
    }
    ok := true;
  }

  /** checkSimpleTableExpr */
  method CheckSimpleTableExpr(s: SimpleTableExpr, cfg: Allowlists, r: Record) returns (ok: bool)
    modifies r
    ensures ok <==> SimpleTableExprOutcome(s, cfg).Pass?
    ensures r.msg == Recorded(old(r.msg), SimpleTableExprOutcome(s, cfg))
    decreases s
  {
    match s
    case NilSimpleTableExpr =>
      ok := true;
    case TableRef(table) =>
      ok := CheckTableName(table, cfg, r);
    case SubqueryTable(select) =>
      ok := CheckStmt(select, cfg, r);
    case OtherSimpleTableExpr =>
      r.msg := Message(BadSimpleTableExpr);
      ok := false;
  }

  /** checkSelectExpr */
  method CheckSelectExpr(s: SelectExpr, cfg: Allowlists, r: Record) returns (ok: bool)
    modifies r
    ensures ok <==> SelectExprOutcome(s, cfg).Pass?
    ensures r.msg == Recorded(old(r.msg), SelectExprOutcome(s, cfg))
    decreases s
  {
    match s
    case NilSelectExpr =>
      ok := true;
    case StarExpr(tableName) =>
      ok := CheckTableName(tableName, cfg, r);
    case AliasedExpr(e) =>
      ok := CheckExpr(e, cfg, r);
    case Nextval(e) =>
      ok := CheckExpr(e, cfg, r);
    case OtherSelectExpr =>
      r.msg := Message(BadSelectExpr);
      ok := false;
  }

  /** The loop over a select list, over a function's arguments, over MATCH
      columns and over GROUP_CONCAT arguments. */
  method CheckSelectExprs(items: seq<SelectExpr>, cfg: Allowlists, r: Record) returns (ok: bool)
    modifies r
    ensures ok <==> SelectExprsOutcome(items, cfg).Pass?
    ensures r.msg == Recorded(old(r.msg), SelectExprsOutcome(items, cfg))
    decreases items
  {
    var i := 0;
    while i < |items|
      invariant 0 <= i <= |items|
      invariant SelectExprsOutcome(items, cfg) == SelectExprsOutcome(items[i..], cfg)
      invariant r.msg == old(r.msg)
    {
      assert items[i..][1..] == items[i + 1..];
      ok := CheckSelectExpr(items[i], cfg, r);
      if !ok {
        return;
      }
      i := i + 1;
    }
    ok := true;
  }

  /** checkExpr: the leaves, the tuples and the subqueries are handled
      here; the wrapper nodes, the operator nodes, the calls and the
      column-bearing nodes by the four methods after it. */
  method CheckExpr(e: Expr, cfg: Allowlists, r: Record) returns (ok: bool)
    modifies r
    ensures ok <==> ExprOutcome(e, cfg).Pass?
    ensures r.msg == Recorded(old(r.msg), ExprOutcome(e, cfg))
    decreases e, 1
  {
    match e
    case NilExpr =>
      ok := true;
    case NotExpr(_) =>
      ok := CheckWrapped(e, cfg, r);
    case ParenExpr(_) =>
      ok := CheckWrapped(e, cfg, r);
    case IsExpr(_) =>
      ok := CheckWrapped(e, cfg, r);
    case ExistsExpr(subquery) =>
      ok := CheckStmt(subquery, cfg, r);
    case SqlVal(_) =>
      ok := true;
    case NullVal =>
      ok := true;
    case BoolVal(_) =>
      ok := true;
    case ColNameExpr(_) =>
      // the column name is not checked here
      ok := true;
    case ValTuple(elems) =>
      ok := CheckExprs(elems, cfg, r);
    case Subquery(select) =>
      ok := CheckStmt(select, cfg, r);
    case ListArg(_) =>
      ok := true;
    case UnaryExpr(_) =>
      ok := CheckWrapped(e, cfg, r);
    case IntervalExpr(_) =>
      ok := CheckWrapped(e, cfg, r);
    case CollateExpr(_) =>
      ok := CheckWrapped(e, cfg, r);
    case ValuesFuncExpr(_) =>
      r.msg := Message(BadValuesExpr);
      ok := false;
    case ConvertExpr(_) =>
      ok := CheckWrapped(e, cfg, r);
    case ConvertUsingExpr(_) =>
      ok := CheckWrapped(e, cfg, r);
    case DefaultExpr(colName) =>
      ok := CheckColNameString(colName, cfg, r);
    case OtherExpr =>
      ok := false;
    case AndExpr(_, _) =>
      ok := CheckOperands(e, cfg, r);
    case OrExpr(_, _) =>
      ok := CheckOperands(e, cfg, r);
    case BinaryExpr(_, _) =>
      ok := CheckOperands(e, cfg, r);
    case ComparisonExpr(_, _, _) =>
      ok := CheckOperands(e, cfg, r);
    case RangeCond(_, _, _) =>
      ok := CheckOperands(e, cfg, r);
    case FuncExpr(_, _, _) =>
      ok := CheckCall(e, cfg, r);
    case CaseExpr(_, _, _) =>
      ok := CheckCall(e, cfg, r);
    case SubstrExpr(_, _, _) =>
      ok := CheckColumns(e, cfg, r);
    case MatchExpr(_, _) =>
      ok := CheckColumns(e, cfg, r);
    case GroupConcatExpr(_, _) =>
      ok := CheckColumns(e, cfg, r);
  }

  /** checkExpr on the nodes that wrap one expression: NOT, parentheses,
      IS, a unary operator, INTERVAL, COLLATE, CONVERT and CONVERT USING. */
  method CheckWrapped(e: Expr, cfg: Allowlists, r: Record) returns (ok: bool)
    requires e.NotExpr? || e.ParenExpr? || e.IsExpr? || e.UnaryExpr? || e.IntervalExpr?
             || e.CollateExpr? || e.ConvertExpr? || e.ConvertUsingExpr?
    modifies r
    ensures ok <==> ExprOutcome(e, cfg).Pass?
    ensures r.msg == Recorded(old(r.msg), ExprOutcome(e, cfg))
    decreases e, 0
  {
    match e
    case NotExpr(x) =>
      ok := CheckExpr(x, cfg, r);
    case ParenExpr(x) =>
      ok := CheckExpr(x, cfg, r);
    case IsExpr(x) =>
      ok := CheckExpr(x, cfg, r);
    case UnaryExpr(x) =>
      ok := CheckExpr(x, cfg, r);
    case IntervalExpr(x) =>
      ok := CheckExpr(x, cfg, r);
    case CollateExpr(x) =>
      ok := CheckExpr(x, cfg, r);
    case ConvertExpr(x) =>
      ok := CheckExpr(x, cfg, r);
    case ConvertUsingExpr(x) =>
      ok := CheckExpr(x, cfg, r);
  }

  /** checkExpr on AND, OR, a binary operator, a comparison and BETWEEN:
      the operands left to right, up to the first failure. */
  method CheckOperands(e: Expr, cfg: Allowlists, r: Record) returns (ok: bool)
    requires e.AndExpr? || e.OrExpr? || e.BinaryExpr? || e.ComparisonExpr? || e.RangeCond?
    modifies r
    ensures ok <==> ExprOutcome(e, cfg).Pass?
    ensures r.msg == Recorded(old(r.msg), ExprOutcome(e, cfg))
    decreases e, 0
  {
    match e
    case AndExpr(left, right) =>
      ok := CheckExpr(left, cfg, r);
      if ok {
        ok := CheckExpr(right, cfg, r);
      }
    case OrExpr(left, right) =>
      ok := CheckExpr(left, cfg, r);
      if ok {
        ok := CheckExpr(right, cfg, r);
      }
    case BinaryExpr(left, right) =>
      ok := CheckExpr(left, cfg, r);
      if ok {
        ok := CheckExpr(right, cfg, r);
      }
    case ComparisonExpr(left, right, escape) =>
      ok := CheckExpr(left, cfg, r);
      if ok {
        ok := CheckExpr(right, cfg, r);
      }
      if ok {
        ok := CheckExpr(escape, cfg, r);
      }
    case RangeCond(left, from, to) =>
      ok := CheckExpr(left, cfg, r);
      if ok {
        ok := CheckExpr(from, cfg, r);
      }
      if ok {
        ok := CheckExpr(to, cfg, r);
      }
  }

  /** checkExpr on a function call (its name, then its arguments) and on
      CASE (the operand, the ELSE value, then the WHEN branches). */
  method CheckCall(e: Expr, cfg: Allowlists, r: Record) returns (ok: bool)
    requires e.FuncExpr? || e.CaseExpr?
    modifies r
    ensures ok <==> ExprOutcome(e, cfg).Pass?
    ensures r.msg == Recorded(old(r.msg), ExprOutcome(e, cfg))
    decreases e, 0
  {
    match e
    case FuncExpr(qualifier, name, args) =>
      ok := CheckFuncName(qualifier, name, cfg, r);
      if ok {
        ok := CheckSelectExprs(args, cfg, r);
      }
    case CaseExpr(x, whens, elseExpr) =>
      ok := CheckExpr(x, cfg, r);
      if ok {
        ok := CheckExpr(elseExpr, cfg, r);
      }
      if ok {
        ok := CheckWhens(whens, cfg, r);
      }
  }

  /** checkExpr on SUBSTRING (its bounds, then its column), MATCH (the
      pattern, then the columns) and GROUP_CONCAT (the arguments, then the
      ORDER BY entries). */
  method CheckColumns(e: Expr, cfg: Allowlists, r: Record) returns (ok: bool)
    requires e.SubstrExpr? || e.MatchExpr? || e.GroupConcatExpr?
    modifies r
    ensures ok <==> ExprOutcome(e, cfg).Pass?
    ensures r.msg == Recorded(old(r.msg), ExprOutcome(e, cfg))
    decreases e, 0
  {
    match e
    case SubstrExpr(col, from, to) =>
      ok := CheckExpr(from, cfg, r);
      if ok {
        ok := CheckExpr(to, cfg, r);
      }
      if ok {
        ok := CheckColName(col, cfg, r);
      }
    case MatchExpr(columns, x) =>
      ok := CheckExpr(x, cfg, r);
      if ok {
        ok := CheckSelectExprs(columns, cfg, r);
      }
    case GroupConcatExpr(args, orderBy) =>
      ok := CheckSelectExprs(args, cfg, r);
      if ok {
        ok := CheckOrderBy(orderBy, cfg, r);
      }
  }

  /** The loop over GROUP BY expressions and over the elements of a tuple. */
  method CheckExprs(es: seq<Expr>, cfg: Allowlists, r: Record) returns (ok: bool)
    modifies r
    ensures ok <==> ExprsOutcome(es, cfg).Pass?
    ensures r.msg == Recorded(old(r.msg), ExprsOutcome(es, cfg))
    decreases es
  {
    var i := 0;
    while i < |es|
      invariant 0 <= i <= |es|
      invariant ExprsOutcome(es, cfg) == ExprsOutcome(es[i..], cfg)
      invariant r.msg == old(r.msg)
    {
      assert es[i..][1..] == es[i + 1..];
      ok := CheckExpr(es[i], cfg, r);
      if !ok {
        return;
      }
      i := i + 1;
    }
    ok := true;
  }

  /** The loop over ORDER BY entries (of a SELECT or of a GROUP_CONCAT),
      skipping nil entries. */
  method CheckOrderBy(orders: seq<Option<Expr>>, cfg: Allowlists, r: Record) returns (ok: bool)
    modifies r
    ensures ok <==> OrderByOutcome(orders, cfg).Pass?
    ensures r.msg == Recorded(old(r.msg), OrderByOutcome(orders, cfg))
    decreases orders
  {
    var i := 0;
    while i < |orders|
      invariant 0 <= i <= |orders|
      invariant OrderByOutcome(orders, cfg) == OrderByOutcome(orders[i..], cfg)
      invariant r.msg == old(r.msg)
    {
      assert orders[i..][1..] == orders[i + 1..];
      if orders[i].Some? {
        assert orders[i].value < orders[i];
        ok := CheckExpr(orders[i].value, cfg, r);
        if !ok {
          return;
        }
      }
      i := i + 1;
    }
    ok := true;
  }

  /** The loop over the WHEN branches of a CASE, skipping nil branches. */
  method CheckWhens(whens: seq<Option<When>>, cfg: Allowlists, r: Record) returns (ok: bool)
    modifies r
    ensures ok <==> WhensOutcome(whens, cfg).Pass?
    ensures r.msg == Recorded(old(r.msg), WhensOutcome(whens, cfg))
    decreases whens
  {
    var i := 0;
    while i < |whens|
      invariant 0 <= i <= |whens|
      invariant WhensOutcome(whens, cfg) == WhensOutcome(whens[i..], cfg)
      invariant r.msg == old(r.msg)
    {
      assert whens[i..][1..] == whens[i + 1..];
      if whens[i].Some? {
        var w := whens[i].value;
        assert w.cond < whens[i] && w.val < whens[i];
        ok := CheckExpr(w.cond, cfg, r);
        if !ok {
          return;
        }
        ok := CheckExpr(w.val, cfg, r);
        if !ok {
          return;
        }
      }
      i := i + 1;
    }
    ok := true;
  }

  /** checkTableName */
  method CheckTableName(t: TableName, cfg: Allowlists, r: Record) returns (ok: bool)
    modifies r
    ensures ok <==> TableNameOutcome(t, cfg).Pass?
    ensures r.msg == Recorded(old(r.msg), TableNameOutcome(t, cfg))
  {
    if t.name == "" {
      return true;
    }
    if cfg.tables.Some? {
      var listed := InList(cfg.tables.value, t.name);
      if !listed {
        r.msg := Message(BadTableName(t.name));
        return false;
      }
    }
    if cfg.databases.Some? {
      if t.qualifier != "" {
        var listed := InList(cfg.databases.value, t.qualifier);
        if !listed {
          r.msg := Message(BadTableQualifier(t.qualifier));
          return false;
        }
      }
    } else if t.qualifier != "" {
      r.msg := Message(BadTableQualifier(t.qualifier));
      return false;
    }
    return true;
  }

  /** checkColName */
  method CheckColName(col: ColName, cfg: Allowlists, r: Record) returns (ok: bool)
    modifies r
    ensures ok <==> ColNameOutcome(col, cfg).Pass?
    ensures r.msg == Recorded(old(r.msg), ColNameOutcome(col, cfg))
  {
    ok := CheckTableName(col.qualifier, cfg, r);
    if ok {
      ok := CheckColNameString(col.name, cfg, r);
    }
  }

  /** checkColNameString */
  method CheckColNameString(column: string, cfg: Allowlists, r: Record) returns (ok: bool)
    modifies r
    ensures ok <==> ColNameStringOutcome(column, cfg).Pass?
    ensures r.msg == Recorded(old(r.msg), ColNameStringOutcome(column, cfg))
  {
    if |column| == 0 {
      return true;
    }
    if cfg.columns.Some? {
      var bare := InList(cfg.columns.value, column);
      var quoted := InList(cfg.columns.value, "`" + column + "`");
      if !bare && !quoted {
        r.msg := Message(BadColumn(column));
        return false;
      }
    }
    return true;
  }

  /** checkFuncName */
  method CheckFuncName(ident: string, funcName: string, cfg: Allowlists, r: Record) returns (ok: bool)
    modifies r
    ensures ok <==> FuncNameOutcome(ident, funcName, cfg).Pass?
    ensures r.msg == Recorded(old(r.msg), FuncNameOutcome(ident, funcName, cfg))
  {
    if |funcName| == 0 && |ident| == 0 {
      return false;
    }
    if |ident| != 0 && cfg.funcIdents.Some? {
      var listed := InList(cfg.funcIdents.value, ident);
      if !listed {
        r.msg := Message(BadFuncIdent(ident));
        return false;
      }
    }
    if cfg.funcNames.Some? {
      var listed := InList(cfg.funcNames.value, ToUpper(funcName));
      if !listed {
        r.msg := Message(BadFuncName(funcName));
        return false;
      }
    } else {
      r.msg := Message(BadFuncName(funcName));
      return false;
    }
    return true;
  }

  /** InList: linear search. */
  method InList<T(==)>(lst: seq<T>, element: T) returns (found: bool)
    ensures found <==> element in lst
  {
    var i := 0;
    while i < |lst|
      invariant 0 <= i <= |lst|
      invariant element !in lst[..i]
    {
      if lst[i] == element {
        return true;
      }
      i := i + 1;
    }
    return false;
  }
}
