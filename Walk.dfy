/**
 The guard's walk over a parsed statement, as pure functions.

 `StmtOutcome`, `TableExprOutcome`, `SimpleTableExprOutcome`,
 `SelectExprOutcome` and `ExprOutcome` follow checkStmt, checkTableExpr,
 checkSimpleTableExpr, checkSelectExpr and checkExpr in sql.go case by
 case, in the same order, stopping at the first failure. The *Outcomes
 functions over sequences are the `for ... range` loops of those functions.

 The `*Obligations` functions list, for the same tree, the identifier
 rules the walk applies and the node shapes it refuses, in traversal
 order, without looking at any allowlist. The main theorem,
 `StmtWalkIsFirstBreach`, says the walk's outcome is the outcome of the
 first unmet obligation; the lemmas after it draw what that means for a
 whole statement.
 */
module Guard {
  import opened SqlParser
  import opened Policy

  // ---------------------------------------------------------------------
  // The walk.

  /** checkStmt: nil passes, a SELECT has its clauses checked in order,
      anything else is "bad stmt operation". */
  function StmtOutcome(stmt: Stmt, cfg: Allowlists): Outcome
    decreases stmt
  {
    match stmt
    case NilStmt => Pass
    case Select(items, from, where, groupBy, having, orderBy, limit) =>
      Then(SelectExprsOutcome(items, cfg),
      Then(TableExprsOutcome(from, cfg),
      Then(OptExprOutcome(where, cfg),
      Then(ExprsOutcome(groupBy, cfg),
      Then(OptExprOutcome(having, cfg),
      Then(OrderByOutcome(orderBy, cfg),
           LimitOutcome(limit, cfg)))))))
    case OtherStmt => Reject(BadStmt)
  }

  /** A present LIMIT has its offset, then its row count, checked. */
  function LimitOutcome(limit: Option<Limit>, cfg: Allowlists): Outcome
    decreases limit
  {
    match limit
    case None => Pass
    case Some(Limit(offset, rowcount)) => Then(ExprOutcome(offset, cfg), ExprOutcome(rowcount, cfg))
  }

  /** A present WHERE or HAVING has its expression checked. */
  function OptExprOutcome(e: Option<Expr>, cfg: Allowlists): Outcome
    decreases e
  {
    match e
    case None => Pass
    case Some(x) => ExprOutcome(x, cfg)
  }

  /** checkTableExpr */
  function TableExprOutcome(t: TableExpr, cfg: Allowlists): Outcome
    decreases t
  {
    match t
    case NilTableExpr => Pass
    case AliasedTableExpr(simple) => SimpleTableExprOutcome(simple, cfg)
    case ParenTableExpr(exprs) => TableExprsOutcome(exprs, cfg)
    case JoinTableExpr(left, right, on) =>
      Then(TableExprOutcome(left, cfg), Then(TableExprOutcome(right, cfg), ExprOutcome(on, cfg)))
    case OtherTableExpr => Reject(BadTableExpr)
  }

  function TableExprsOutcome(ts: seq<TableExpr>, cfg: Allowlists): Outcome
    decreases ts
  {
    if ts == [] then Pass else Then(TableExprOutcome(ts[0], cfg), TableExprsOutcome(ts[1..], cfg))
  }

  /** checkSimpleTableExpr */
  function SimpleTableExprOutcome(s: SimpleTableExpr, cfg: Allowlists): Outcome
    decreases s
  {
    match s
    case NilSimpleTableExpr => Pass
    case TableRef(table) => TableNameOutcome(table, cfg)
    case SubqueryTable(select) => StmtOutcome(select, cfg)
    case OtherSimpleTableExpr => Reject(BadSimpleTableExpr)
  }

  /** checkSelectExpr */
  function SelectExprOutcome(s: SelectExpr, cfg: Allowlists): Outcome
    decreases s
  {
    match s
    case NilSelectExpr => Pass
    case StarExpr(tableName) => TableNameOutcome(tableName, cfg)
    case AliasedExpr(e) => ExprOutcome(e, cfg)
    case Nextval(e) => ExprOutcome(e, cfg)
    case OtherSelectExpr => Reject(BadSelectExpr)
  }

  function SelectExprsOutcome(items: seq<SelectExpr>, cfg: Allowlists): Outcome
    decreases items
  {
    if items == [] then Pass else Then(SelectExprOutcome(items[0], cfg), SelectExprsOutcome(items[1..], cfg))
  }

  /** checkExpr: one case per node kind. A bare column reference is not
      checked; an unrecognised kind fails without a message. */
  function ExprOutcome(e: Expr, cfg: Allowlists): Outcome
    decreases e
  {
    match e
    case NilExpr => Pass
    case AndExpr(left, right) => Then(ExprOutcome(left, cfg), ExprOutcome(right, cfg))
    case OrExpr(left, right) => Then(ExprOutcome(left, cfg), ExprOutcome(right, cfg))
    case NotExpr(x) => ExprOutcome(x, cfg)
    case ParenExpr(x) => ExprOutcome(x, cfg)
    case ComparisonExpr(left, right, escape) =>
      Then(ExprOutcome(left, cfg), Then(ExprOutcome(right, cfg), ExprOutcome(escape, cfg)))
    case RangeCond(left, from, to) =>
      Then(ExprOutcome(left, cfg), Then(ExprOutcome(from, cfg), ExprOutcome(to, cfg)))
    case IsExpr(x) => ExprOutcome(x, cfg)
    case ExistsExpr(subquery) => StmtOutcome(subquery, cfg)
    case SqlVal(_) => Pass
    case NullVal => Pass
    case BoolVal(_) => Pass
    case ColNameExpr(_) => Pass
    case ValTuple(elems) => ExprsOutcome(elems, cfg)
    case Subquery(select) => StmtOutcome(select, cfg)
    case ListArg(_) => Pass
    case BinaryExpr(left, right) => Then(ExprOutcome(left, cfg), ExprOutcome(right, cfg))
    case UnaryExpr(x) => ExprOutcome(x, cfg)
    case IntervalExpr(x) => ExprOutcome(x, cfg)
    case CollateExpr(x) => ExprOutcome(x, cfg)
    case FuncExpr(qualifier, name, args) =>
      Then(FuncNameOutcome(qualifier, name, cfg), SelectExprsOutcome(args, cfg))
    case CaseExpr(x, whens, elseExpr) =>
      Then(ExprOutcome(x, cfg), Then(ExprOutcome(elseExpr, cfg), WhensOutcome(whens, cfg)))
    case ValuesFuncExpr(_) => Reject(BadValuesExpr)
    case ConvertExpr(x) => ExprOutcome(x, cfg)
    case SubstrExpr(col, from, to) =>
      Then(ExprOutcome(from, cfg), Then(ExprOutcome(to, cfg), ColNameOutcome(col, cfg)))
    case ConvertUsingExpr(x) => ExprOutcome(x, cfg)
    case MatchExpr(columns, x) => Then(ExprOutcome(x, cfg), SelectExprsOutcome(columns, cfg))
    case GroupConcatExpr(args, orderBy) =>
      Then(SelectExprsOutcome(args, cfg), OrderByOutcome(orderBy, cfg))
    case DefaultExpr(colName) => ColNameStringOutcome(colName, cfg)
    case OtherExpr => Reject(UnknownExpr)
  }

  function ExprsOutcome(es: seq<Expr>, cfg: Allowlists): Outcome
    decreases es
  {
    if es == [] then Pass else Then(ExprOutcome(es[0], cfg), ExprsOutcome(es[1..], cfg))
  }

  /** An ORDER BY list: nil entries are skipped. */
  function OrderByOutcome(orders: seq<Option<Expr>>, cfg: Allowlists): Outcome
    decreases orders
  {
    if orders == [] then Pass
    else Then(OptExprOutcome(orders[0], cfg), OrderByOutcome(orders[1..], cfg))
  }

  /** The WHEN branches of a CASE: nil branches are skipped, otherwise the
      condition and then the value. */
  function WhensOutcome(whens: seq<Option<When>>, cfg: Allowlists): Outcome
    decreases whens
  {
    if whens == [] then Pass else Then(WhenOutcome(whens[0], cfg), WhensOutcome(whens[1..], cfg))
  }

  function WhenOutcome(w: Option<When>, cfg: Allowlists): Outcome
    decreases w
  {
    match w
    case None => Pass
    case Some(When(cond, val)) => Then(ExprOutcome(cond, cfg), ExprOutcome(val, cfg))
  }

  // ---------------------------------------------------------------------
  // The obligations the walk discharges, in order.

  function StmtObligations(stmt: Stmt): seq<Obligation>
    decreases stmt
  {
    match stmt
    case NilStmt => []
    case Select(items, from, where, groupBy, having, orderBy, limit) =>
      SelectExprsObligations(items) + TableExprsObligations(from) + OptExprObligations(where)
      + ExprsObligations(groupBy) + OptExprObligations(having) + OrderByObligations(orderBy)
      + LimitObligations(limit)
    case OtherStmt => [Refused(BadStmt)]
  }

  function LimitObligations(limit: Option<Limit>): seq<Obligation>
    decreases limit
  {
    match limit
    case None => []
    case Some(Limit(offset, rowcount)) => ExprObligations(offset) + ExprObligations(rowcount)
  }

  function OptExprObligations(e: Option<Expr>): seq<Obligation>
    decreases e
  {
    match e
    case None => []
    case Some(x) => ExprObligations(x)
  }

  function TableExprObligations(t: TableExpr): seq<Obligation>
    decreases t
  {
    match t
    case NilTableExpr => []
    case AliasedTableExpr(simple) => SimpleTableExprObligations(simple)
    case ParenTableExpr(exprs) => TableExprsObligations(exprs)
    case JoinTableExpr(left, right, on) =>
      TableExprObligations(left) + TableExprObligations(right) + ExprObligations(on)
    case OtherTableExpr => [Refused(BadTableExpr)]
  }

  function TableExprsObligations(ts: seq<TableExpr>): seq<Obligation>
    decreases ts
  {
    if ts == [] then [] else TableExprObligations(ts[0]) + TableExprsObligations(ts[1..])
  }

  function SimpleTableExprObligations(s: SimpleTableExpr): seq<Obligation>
    decreases s
  {
    match s
    case NilSimpleTableExpr => []
    case TableRef(table) => [TableRule(table)]
    case SubqueryTable(select) => StmtObligations(select)
    case OtherSimpleTableExpr => [Refused(BadSimpleTableExpr)]
  }

  function SelectExprObligations(s: SelectExpr): seq<Obligation>
    decreases s
  {
    match s
    case NilSelectExpr => []
    case StarExpr(tableName) => [TableRule(tableName)]
    case AliasedExpr(e) => ExprObligations(e)
    case Nextval(e) => ExprObligations(e)
    case OtherSelectExpr => [Refused(BadSelectExpr)]
  }

  function SelectExprsObligations(items: seq<SelectExpr>): seq<Obligation>
    decreases items
  {
    if items == [] then [] else SelectExprObligations(items[0]) + SelectExprsObligations(items[1..])
  }

  function ExprObligations(e: Expr): seq<Obligation>
    decreases e
  {
    match e
    case NilExpr => []
    case AndExpr(left, right) => ExprObligations(left) + ExprObligations(right)
    case OrExpr(left, right) => ExprObligations(left) + ExprObligations(right)
    case NotExpr(x) => ExprObligations(x)
    case ParenExpr(x) => ExprObligations(x)
    case ComparisonExpr(left, right, escape) =>
      ExprObligations(left) + ExprObligations(right) + ExprObligations(escape)
    case RangeCond(left, from, to) =>
      ExprObligations(left) + ExprObligations(from) + ExprObligations(to)
    case IsExpr(x) => ExprObligations(x)
    case ExistsExpr(subquery) => StmtObligations(subquery)
    case SqlVal(_) => []
    case NullVal => []
    case BoolVal(_) => []
    case ColNameExpr(_) => []
    case ValTuple(elems) => ExprsObligations(elems)
    case Subquery(select) => StmtObligations(select)
    case ListArg(_) => []
    case BinaryExpr(left, right) => ExprObligations(left) + ExprObligations(right)
    case UnaryExpr(x) => ExprObligations(x)
    case IntervalExpr(x) => ExprObligations(x)
    case CollateExpr(x) => ExprObligations(x)
    case FuncExpr(qualifier, name, args) => [FuncRule(qualifier, name)] + SelectExprsObligations(args)
    case CaseExpr(x, whens, elseExpr) =>
      ExprObligations(x) + ExprObligations(elseExpr) + WhensObligations(whens)
    case ValuesFuncExpr(_) => [Refused(BadValuesExpr)]
    case ConvertExpr(x) => ExprObligations(x)
    case SubstrExpr(col, from, to) =>
      ExprObligations(from) + ExprObligations(to) + [TableRule(col.qualifier), ColumnRule(col.name)]
    case ConvertUsingExpr(x) => ExprObligations(x)
    case MatchExpr(columns, x) => ExprObligations(x) + SelectExprsObligations(columns)
    case GroupConcatExpr(args, orderBy) => SelectExprsObligations(args) + OrderByObligations(orderBy)
    case DefaultExpr(colName) => [ColumnRule(colName)]
    case OtherExpr => [Refused(UnknownExpr)]
  }

  function ExprsObligations(es: seq<Expr>): seq<Obligation>
    decreases es
  {
    if es == [] then [] else ExprObligations(es[0]) + ExprsObligations(es[1..])
  }

  function OrderByObligations(orders: seq<Option<Expr>>): seq<Obligation>
    decreases orders
  {
    if orders == [] then [] else OptExprObligations(orders[0]) + OrderByObligations(orders[1..])
  }

  function WhensObligations(whens: seq<Option<When>>): seq<Obligation>
    decreases whens
  {
    if whens == [] then [] else WhenObligations(whens[0]) + WhensObligations(whens[1..])
  }

  function WhenObligations(w: Option<When>): seq<Obligation>
    decreases w
  {
    match w
    case None => []
    case Some(When(cond, val)) => ExprObligations(cond) + ExprObligations(val)
  }

  // ---------------------------------------------------------------------
  // The walk reports the first unmet obligation.

  lemma FirstBreachAppend3(a: seq<Obligation>, b: seq<Obligation>, c: seq<Obligation>, cfg: Allowlists)
    ensures FirstBreach(a + b + c, cfg) == Then(FirstBreach(a, cfg), Then(FirstBreach(b, cfg), FirstBreach(c, cfg)))
  {
    FirstBreachAppend(a, b, cfg);
    FirstBreachAppend(a + b, c, cfg);
  }

  /** The short-circuit walk of checkStmt gives exactly the outcome, message
      included, of the first obligation in traversal order that the
      allowlists do not meet. */
  lemma {:induction false} StmtWalkIsFirstBreach(stmt: Stmt, cfg: Allowlists)
    ensures StmtOutcome(stmt, cfg) == FirstBreach(StmtObligations(stmt), cfg)
    decreases stmt
  {
    match stmt
    case NilStmt =>
    case Select(items, from, where, groupBy, having, orderBy, limit) =>
      SelectExprsWalkIsFirstBreach(items, cfg);
      TableExprsWalkIsFirstBreach(from, cfg);
      OptExprWalkIsFirstBreach(where, cfg);
      ExprsWalkIsFirstBreach(groupBy, cfg);
      OptExprWalkIsFirstBreach(having, cfg);
      OrderByWalkIsFirstBreach(orderBy, cfg);
      LimitWalkIsFirstBreach(limit, cfg);
      var o1, o2, o3, o4 := SelectExprsObligations(items), TableExprsObligations(from),
                            OptExprObligations(where), ExprsObligations(groupBy);
      var o5, o6, o7 := OptExprObligations(having), OrderByObligations(orderBy), LimitObligations(limit);
      FirstBreachAppend(o1, o2, cfg);
      FirstBreachAppend3(o1 + o2, o3, o4, cfg);
      FirstBreachAppend3(o1 + o2 + o3 + o4, o5, o6, cfg);
      FirstBreachAppend(o1 + o2 + o3 + o4 + o5 + o6, o7, cfg);
    case OtherStmt =>
      FirstBreachSingle(Refused(BadStmt), cfg);
  }

  lemma {:induction false} LimitWalkIsFirstBreach(limit: Option<Limit>, cfg: Allowlists)
    ensures LimitOutcome(limit, cfg) == FirstBreach(LimitObligations(limit), cfg)
    decreases limit
  {
    match limit
    case None =>
    case Some(Limit(offset, rowcount)) =>
      ExprWalkIsFirstBreach(offset, cfg);
      ExprWalkIsFirstBreach(rowcount, cfg);
      FirstBreachAppend(ExprObligations(offset), ExprObligations(rowcount), cfg);
  }

  lemma {:induction false} OptExprWalkIsFirstBreach(e: Option<Expr>, cfg: Allowlists)
    ensures OptExprOutcome(e, cfg) == FirstBreach(OptExprObligations(e), cfg)
    decreases e
  {
    match e
    case None =>
    case Some(x) => ExprWalkIsFirstBreach(x, cfg);
  }

  lemma {:induction false} TableExprWalkIsFirstBreach(t: TableExpr, cfg: Allowlists)
    ensures TableExprOutcome(t, cfg) == FirstBreach(TableExprObligations(t), cfg)
    decreases t
  {
    match t
    case NilTableExpr =>
    case AliasedTableExpr(simple) => SimpleTableExprWalkIsFirstBreach(simple, cfg);
    case ParenTableExpr(exprs) => TableExprsWalkIsFirstBreach(exprs, cfg);
    case JoinTableExpr(left, right, on) =>
      TableExprWalkIsFirstBreach(left, cfg);
      TableExprWalkIsFirstBreach(right, cfg);
      ExprWalkIsFirstBreach(on, cfg);
      FirstBreachAppend3(TableExprObligations(left), TableExprObligations(right), ExprObligations(on), cfg);
    case OtherTableExpr => FirstBreachSingle(Refused(BadTableExpr), cfg);
  }

  lemma {:induction false} TableExprsWalkIsFirstBreach(ts: seq<TableExpr>, cfg: Allowlists)
    ensures TableExprsOutcome(ts, cfg) == FirstBreach(TableExprsObligations(ts), cfg)
    decreases ts
  {
    if ts != [] {
      TableExprWalkIsFirstBreach(ts[0], cfg);
      TableExprsWalkIsFirstBreach(ts[1..], cfg);
      FirstBreachAppend(TableExprObligations(ts[0]), TableExprsObligations(ts[1..]), cfg);
    }
  }

  lemma {:induction false} SimpleTableExprWalkIsFirstBreach(s: SimpleTableExpr, cfg: Allowlists)
    ensures SimpleTableExprOutcome(s, cfg) == FirstBreach(SimpleTableExprObligations(s), cfg)
    decreases s
  {
    match s
    case NilSimpleTableExpr =>
    case TableRef(table) => FirstBreachSingle(TableRule(table), cfg);
    case SubqueryTable(select) => StmtWalkIsFirstBreach(select, cfg);
    case OtherSimpleTableExpr => FirstBreachSingle(Refused(BadSimpleTableExpr), cfg);
  }

  lemma {:induction false} SelectExprWalkIsFirstBreach(s: SelectExpr, cfg: Allowlists)
    ensures SelectExprOutcome(s, cfg) == FirstBreach(SelectExprObligations(s), cfg)
    decreases s
  {
    match s
    case NilSelectExpr =>
    case StarExpr(tableName) => FirstBreachSingle(TableRule(tableName), cfg);
    case AliasedExpr(e) => ExprWalkIsFirstBreach(e, cfg);
    case Nextval(e) => ExprWalkIsFirstBreach(e, cfg);
    case OtherSelectExpr => FirstBreachSingle(Refused(BadSelectExpr), cfg);
  }

  lemma {:induction false} SelectExprsWalkIsFirstBreach(items: seq<SelectExpr>, cfg: Allowlists)
    ensures SelectExprsOutcome(items, cfg) == FirstBreach(SelectExprsObligations(items), cfg)
    decreases items
  {
    if items != [] {
      SelectExprWalkIsFirstBreach(items[0], cfg);
      SelectExprsWalkIsFirstBreach(items[1..], cfg);
      FirstBreachAppend(SelectExprObligations(items[0]), SelectExprsObligations(items[1..]), cfg);
    }
  }

  lemma {:induction false} ExprWalkIsFirstBreach(e: Expr, cfg: Allowlists)
    ensures ExprOutcome(e, cfg) == FirstBreach(ExprObligations(e), cfg)
    decreases e, 2
  {
    match e
    case NotExpr(x) => ExprWalkIsFirstBreach(x, cfg);
    case ParenExpr(x) => ExprWalkIsFirstBreach(x, cfg);
    case IsExpr(x) => ExprWalkIsFirstBreach(x, cfg);
    case ExistsExpr(subquery) => StmtWalkIsFirstBreach(subquery, cfg);
    case ValTuple(elems) => ExprsWalkIsFirstBreach(elems, cfg);
    case Subquery(select) => StmtWalkIsFirstBreach(select, cfg);
    case UnaryExpr(x) => ExprWalkIsFirstBreach(x, cfg);
    case IntervalExpr(x) => ExprWalkIsFirstBreach(x, cfg);
    case CollateExpr(x) => ExprWalkIsFirstBreach(x, cfg);
    case ValuesFuncExpr(_) => FirstBreachSingle(Refused(BadValuesExpr), cfg);
    case ConvertExpr(x) => ExprWalkIsFirstBreach(x, cfg);
    case ConvertUsingExpr(x) => ExprWalkIsFirstBreach(x, cfg);
    case DefaultExpr(colName) => FirstBreachSingle(ColumnRule(colName), cfg);
    case OtherExpr => FirstBreachSingle(Refused(UnknownExpr), cfg);
    case NilExpr =>
    case SqlVal(_) =>
    case NullVal =>
    case BoolVal(_) =>
    case ColNameExpr(_) =>
    case ListArg(_) =>
    case AndExpr(_, _) => OperatorWalkIsFirstBreach(e, cfg);
    case OrExpr(_, _) => OperatorWalkIsFirstBreach(e, cfg);
    case BinaryExpr(_, _) => OperatorWalkIsFirstBreach(e, cfg);
    case ComparisonExpr(_, _, _) => OperatorWalkIsFirstBreach(e, cfg);
    case RangeCond(_, _, _) => OperatorWalkIsFirstBreach(e, cfg);
    case FuncExpr(_, _, _) => CallWalkIsFirstBreach(e, cfg);
    case CaseExpr(_, _, _) => CaseWalkIsFirstBreach(e, cfg);
    case SubstrExpr(_, _, _) => SubstrWalkIsFirstBreach(e, cfg);
    case MatchExpr(_, _) => ColumnsWalkIsFirstBreach(e, cfg);
    case GroupConcatExpr(_, _) => ColumnsWalkIsFirstBreach(e, cfg);
  }

  /** The binary and ternary operator nodes of ExprWalkIsFirstBreach. */
  lemma {:induction false} OperatorWalkIsFirstBreach(e: Expr, cfg: Allowlists)
    requires e.AndExpr? || e.OrExpr? || e.BinaryExpr? || e.ComparisonExpr? || e.RangeCond?
    ensures ExprOutcome(e, cfg) == FirstBreach(ExprObligations(e), cfg)
    decreases e, 1
  {
    match e
    case AndExpr(left, right) =>
      ExprWalkIsFirstBreach(left, cfg);
      ExprWalkIsFirstBreach(right, cfg);
      FirstBreachAppend(ExprObligations(left), ExprObligations(right), cfg);
    case OrExpr(left, right) =>
      ExprWalkIsFirstBreach(left, cfg);
      ExprWalkIsFirstBreach(right, cfg);
      FirstBreachAppend(ExprObligations(left), ExprObligations(right), cfg);
    case BinaryExpr(left, right) =>
      ExprWalkIsFirstBreach(left, cfg);
      ExprWalkIsFirstBreach(right, cfg);
      FirstBreachAppend(ExprObligations(left), ExprObligations(right), cfg);
    case ComparisonExpr(left, right, escape) =>
      ExprWalkIsFirstBreach(left, cfg);
      ExprWalkIsFirstBreach(right, cfg);
      ExprWalkIsFirstBreach(escape, cfg);
      FirstBreachAppend3(ExprObligations(left), ExprObligations(right), ExprObligations(escape), cfg);
    case RangeCond(left, from, to) =>
      ExprWalkIsFirstBreach(left, cfg);
      ExprWalkIsFirstBreach(from, cfg);
      ExprWalkIsFirstBreach(to, cfg);
      FirstBreachAppend3(ExprObligations(left), ExprObligations(from), ExprObligations(to), cfg);
  }

  /** The function-call node of ExprWalkIsFirstBreach. */
  lemma {:induction false} CallWalkIsFirstBreach(e: Expr, cfg: Allowlists)
    requires e.FuncExpr?
    ensures ExprOutcome(e, cfg) == FirstBreach(ExprObligations(e), cfg)
    decreases e, 1
  {
    var FuncExpr(qualifier, name, args) := e;
    SelectExprsWalkIsFirstBreach(args, cfg);
    FirstBreachSingle(FuncRule(qualifier, name), cfg);
    FirstBreachAppend([FuncRule(qualifier, name)], SelectExprsObligations(args), cfg);
  }

  /** The CASE node of ExprWalkIsFirstBreach. */
  lemma {:induction false} CaseWalkIsFirstBreach(e: Expr, cfg: Allowlists)
    requires e.CaseExpr?
    ensures ExprOutcome(e, cfg) == FirstBreach(ExprObligations(e), cfg)
    decreases e, 1
  {
    var CaseExpr(x, whens, elseExpr) := e;
    ExprWalkIsFirstBreach(x, cfg);
    ExprWalkIsFirstBreach(elseExpr, cfg);
    WhensWalkIsFirstBreach(whens, cfg);
    FirstBreachAppend3(ExprObligations(x), ExprObligations(elseExpr), WhensObligations(whens), cfg);
  }

  /** The SUBSTRING node of ExprWalkIsFirstBreach. */
  lemma {:induction false} SubstrWalkIsFirstBreach(e: Expr, cfg: Allowlists)
    requires e.SubstrExpr?
    ensures ExprOutcome(e, cfg) == FirstBreach(ExprObligations(e), cfg)
    decreases e, 1
  {
    var SubstrExpr(col, from, to) := e;
    ExprWalkIsFirstBreach(from, cfg);
    ExprWalkIsFirstBreach(to, cfg);
    ColNameIsFirstBreach(col, cfg);
    FirstBreachAppend3(ExprObligations(from), ExprObligations(to),
                       [TableRule(col.qualifier), ColumnRule(col.name)], cfg);
  }

  /** The MATCH and GROUP_CONCAT nodes of ExprWalkIsFirstBreach. */
  lemma {:induction false} ColumnsWalkIsFirstBreach(e: Expr, cfg: Allowlists)
    requires e.MatchExpr? || e.GroupConcatExpr?
    ensures ExprOutcome(e, cfg) == FirstBreach(ExprObligations(e), cfg)
    decreases e, 1
  {
    match e
    case MatchExpr(columns, x) =>
      ExprWalkIsFirstBreach(x, cfg);
      SelectExprsWalkIsFirstBreach(columns, cfg);
      FirstBreachAppend(ExprObligations(x), SelectExprsObligations(columns), cfg);
    case GroupConcatExpr(args, orderBy) =>
      SelectExprsWalkIsFirstBreach(args, cfg);
      OrderByWalkIsFirstBreach(orderBy, cfg);
      FirstBreachAppend(SelectExprsObligations(args), OrderByObligations(orderBy), cfg);
  }

  lemma {:induction false} ExprsWalkIsFirstBreach(es: seq<Expr>, cfg: Allowlists)
    ensures ExprsOutcome(es, cfg) == FirstBreach(ExprsObligations(es), cfg)
    decreases es
  {
    if es != [] {
      ExprWalkIsFirstBreach(es[0], cfg);
      ExprsWalkIsFirstBreach(es[1..], cfg);
      FirstBreachAppend(ExprObligations(es[0]), ExprsObligations(es[1..]), cfg);
    }
  }

  lemma {:induction false} OrderByWalkIsFirstBreach(orders: seq<Option<Expr>>, cfg: Allowlists)
    ensures OrderByOutcome(orders, cfg) == FirstBreach(OrderByObligations(orders), cfg)
    decreases orders
  {
    if orders != [] {
      OptExprWalkIsFirstBreach(orders[0], cfg);
      OrderByWalkIsFirstBreach(orders[1..], cfg);
      FirstBreachAppend(OptExprObligations(orders[0]), OrderByObligations(orders[1..]), cfg);
    }
  }

  lemma {:induction false} WhensWalkIsFirstBreach(whens: seq<Option<When>>, cfg: Allowlists)
    ensures WhensOutcome(whens, cfg) == FirstBreach(WhensObligations(whens), cfg)
    decreases whens
  {
    if whens != [] {
      WhenWalkIsFirstBreach(whens[0], cfg);
      WhensWalkIsFirstBreach(whens[1..], cfg);
      FirstBreachAppend(WhenObligations(whens[0]), WhensObligations(whens[1..]), cfg);
    }
  }

  lemma {:induction false} WhenWalkIsFirstBreach(w: Option<When>, cfg: Allowlists)
    ensures WhenOutcome(w, cfg) == FirstBreach(WhenObligations(w), cfg)
    decreases w
  {
    match w
    case None =>
    case Some(When(cond, val)) =>
      ExprWalkIsFirstBreach(cond, cfg);
      ExprWalkIsFirstBreach(val, cfg);
      FirstBreachAppend(ExprObligations(cond), ExprObligations(val), cfg);
  }
}
