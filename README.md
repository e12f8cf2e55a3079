# safe-sql query guard in Dafny

This project models the read-only query guard of `sql.go`. The guard receives a SQL
statement that a parser has already turned into a tree, and decides two things:
- whether the statement is a plain `SELECT`;
- whether every table, database qualifier, column and function it names is allowed by up to five optional allowlists.

The walk stops at the first violation and reports it through the `Msg` field of a shared
`Record`.

The model has six files:

- `Ast.dfy` (module `SqlParser`) holds the node shapes of the parsed tree that the guard
  dispatches on. A Go interface slot that may be nil becomes an explicit `Nil*` variant. A
  nilable struct pointer (WHERE, HAVING, LIMIT, an ORDER BY entry, a WHEN branch) becomes an
  `Option`. All statement, table, select-item and expression kinds outside the dispatch
  collapse into one `Other*` variant each.
- `Rules.dfy` (module `Policy`) holds the following:
  - the allowlists, as five `Option<seq<string>>` slots;
  - the violations, with the exact message each one writes;
  - the identifier rules (`checkTableName`, `checkColName`, `checkColNameString`, `checkFuncName`) as functions;
  - a declarative table `Met` of when a name is acceptable, with the lemmas that tie the rules to it.
- `Walk.dfy` (module `Guard`) holds the walk as pure functions that follow `checkStmt`,
  `checkTableExpr`, `checkSimpleTableExpr`, `checkSelectExpr` and `checkExpr` case by case.
  It also holds an independent listing of the *obligations* a statement raises. An obligation
  is one identifier rule applied to one name, or one refused node, listed in traversal order.
  The main theorem, `StmtWalkIsFirstBreach`, says the short-circuit walk reports exactly the
  first unmet obligation.
- `SafeSql.dfy` (module `SafeSql`) is the guard as `sql.go` runs it. A `Record` class holds
  `msg`, and recursive methods thread it. Their `for ... range` loops end early with
  `return false`, and each failure site writes `msg` once. Every method is proved against the
  corresponding walk function. It returns true exactly when that function passes. It leaves in
  `msg` the message of the first violation, or the old message when there is no violation or
  the violation is silent.
- `Properties.dfy` (module `GuardProperties`) and `Examples.dfy` (module `GuardExamples`)
  hold what follows for whole statements, and worked queries.

The model follows the code as written, including where it checks less than its own
comments or a reader might expect:

- A bare column reference in an expression is not checked, although the comment in its
  empty case in `checkExpr` (sql.go:193-194) says "check ColName". The column list is
  consulted only through `SUBSTRING` and `DEFAULT(col)`.
- A rejected statement kind writes "bad stmt operation".
- A rejection does not always carry a message. An unknown expression kind and a function call
  with neither name nor qualifier return false without writing `Msg`. `CheckSql` then returns
  `false` with an empty message.
- An empty table name passes even when it has a qualifier, because the emptiness test looks at
  the name only. An empty column name passes whatever the column list holds.

## Model

| member | source | states |
|---|---|---|
| `SafeSql.CheckSql` | sql.go:22-30 | on an already-parsed statement it returns true exactly when the walk passes. A pass comes with an empty message. A rejection carries the first violation's message, or "" when that violation is silent |
| `SafeSql.Record.constructor` | sql.go:18-20 | a fresh record has an empty message |
| `SafeSql.CheckStmt` | sql.go:32-93 | returns true exactly when `StmtOutcome` passes. `msg` becomes the first violation's message, or keeps its old value |
| `SafeSql.CheckSelectExprs` | sql.go:39-43 | the select-list loop: true exactly when every item passes in order. It stops at the first failing item and leaves that item's message |
| `SafeSql.CheckTableExprs` | sql.go:103-109 | the FROM-list and parenthesised-list loop, with the same contract over table expressions |
| `SafeSql.CheckExprs` | sql.go:57-61 | the GROUP BY loop (also used for value tuples), with the same contract over expressions |
| `SafeSql.CheckOrderBy` | sql.go:69-76 | the ORDER BY loop: nil entries are skipped, the others are checked in order up to the first failure |
| `SafeSql.CheckWhens` | sql.go:243-253 | the CASE branch loop: nil branches are skipped, otherwise the condition and then the value, up to the first failure |
| `SafeSql.CheckTableExpr` | sql.go:95-127 | returns true exactly when `TableExprOutcome` passes. An unknown FROM entry writes "bad table expr" |
| `SafeSql.CheckSimpleTableExpr` | sql.go:307-321 | returns true exactly when `SimpleTableExprOutcome` passes. A derived table is walked as a statement |
| `SafeSql.CheckSelectExpr` | sql.go:323-339 | returns true exactly when `SelectExprOutcome` passes. `*` checks only its table qualifier |
| `SafeSql.CheckExpr` | sql.go:129-305 | returns true exactly when `ExprOutcome` passes. An unknown kind fails without touching `msg` |
| `SafeSql.CheckWrapped` | sql.go:214-225 | on a node wrapping one expression (unary operator, INTERVAL, COLLATE, and likewise NOT, parentheses, IS, CONVERT, CONVERT USING) the wrapped expression's result and message |
| `SafeSql.CheckOperands` | sql.go:137-178 | on AND, OR, a comparison, BETWEEN (and a binary operator, sql.go:207-213): the operands left to right, true exactly when `ExprOutcome` passes, the first failure's message |
| `SafeSql.CheckCall` | sql.go:226-253 | on a function call the name rule and then the arguments; on CASE the operand, the ELSE value and then the WHEN branches; true exactly when `ExprOutcome` passes |
| `SafeSql.CheckColumns` | sql.go:261-297 | on SUBSTRING the bounds then the column; on MATCH the pattern then the columns; on GROUP_CONCAT the arguments then the ORDER BY; true exactly when `ExprOutcome` passes |
| `SafeSql.CheckTableName` | sql.go:341-366 | returns true exactly when `TableNameOutcome` passes, and writes the table-name or qualifier message on failure |
| `SafeSql.CheckColName` | sql.go:368-374 | the qualifier's table rule, then the column rule, with the first failure's message |
| `SafeSql.CheckColNameString` | sql.go:376-388 | returns true exactly when `ColNameStringOutcome` passes, which needs the name to be listed bare or in backticks |
| `SafeSql.CheckFuncName` | sql.go:390-413 | returns true exactly when `FuncNameOutcome` passes. A nameless call fails silently |
| `SafeSql.InList` | sql.go:415-423 | the linear search finds the element exactly when it is in the list |
| `Guard.StmtOutcome` | sql.go:32-93 | the statement walk as a function: nil passes, a non-SELECT is `Reject(BadStmt)`, a SELECT chains its select items, FROM, WHERE, GROUP BY, HAVING, ORDER BY and LIMIT offset and row count, stopping at the first rejection |
| `Guard.LimitOutcome` | sql.go:78-86 | an absent LIMIT passes; otherwise the offset, then the row count |
| `Guard.OptExprOutcome` | sql.go:51-55 | an absent WHERE, HAVING or ORDER BY entry passes; otherwise its expression's outcome |
| `Guard.TableExprOutcome` | sql.go:95-127 | nil passes; an aliased entry is its simple table's outcome; a parenthesised list its list's; a join its left side, right side, then ON condition; anything else `Reject(BadTableExpr)` |
| `Guard.TableExprsOutcome` | sql.go:45-49 | the FROM list left to right, stopping at the first rejection |
| `Guard.SimpleTableExprOutcome` | sql.go:307-321 | nil passes; a table name is the table rule's outcome; a derived table its statement's; anything else `Reject(BadSimpleTableExpr)` |
| `Guard.SelectExprOutcome` | sql.go:323-339 | nil passes; `*` is its table rule's outcome; an aliased or NEXT VALUE item its expression's; anything else `Reject(BadSelectExpr)` |
| `Guard.SelectExprsOutcome` | sql.go:39-43 | the select items left to right, stopping at the first rejection |
| `Guard.ExprOutcome` | sql.go:129-305 | each of the expression kinds sql.go dispatches on, with its children in sql.go's order; leaves and bare columns pass, VALUES(col) is `Reject(BadValuesExpr)`, an unknown kind `Reject(UnknownExpr)` |
| `Guard.ExprsOutcome` | sql.go:57-61 | GROUP BY and tuple elements left to right, stopping at the first rejection |
| `Guard.OrderByOutcome` | sql.go:69-76 | ORDER BY entries left to right, nil entries skipped |
| `Guard.WhensOutcome` | sql.go:243-253 | WHEN branches left to right, nil branches skipped, each branch (`WhenOutcome`) its condition then its value |
| `Policy.TableNameOutcome` | sql.go:341-366 | checkTableName: it rejects with `BadTableName(name)` exactly when the name is non-empty and not admitted by the table list. It rejects with `BadTableQualifier(qualifier)` exactly when the name is non-empty and admitted but a non-empty qualifier is not in a present database list. Otherwise it passes |
| `Policy.ColNameStringOutcome` | sql.go:376-388 | checkColNameString: it rejects, always with `BadColumn(column)`, exactly when the name is non-empty and a present column list holds it neither bare nor in backticks |
| `Policy.ColNameOutcome` | sql.go:368-374 | checkColName: passes exactly when the qualifier meets the table row and the name meets the column row |
| `Policy.FuncNameOutcome` | sql.go:390-413 | checkFuncName: the silent `NamelessFunc` exactly when name and ident are both empty. `BadFuncIdent(ident)` exactly when a non-empty ident is missing from a present ident list. `BadFuncName(funcName)` exactly when the call has a name or ident, its ident passes, and the upper-cased name is not in a present function-name list. Otherwise it passes |
| `Policy.Recorded` | sql.go:346-410 | the message a check leaves: the violation's message when it rejects with a non-silent violation, the previous message otherwise |
| `Policy.ParseMessage` | sql.go:346-410 | every message reads back as the violation that wrote it |
| `Policy.ToUpper` | sql.go:404 | upper-casing keeps the length and maps every character through ASCII upper-casing |
| `Policy.RuleOutcomeMatchesTable` | sql.go:341-413 | each identifier rule, in the order sql.go tests it, passes exactly when the category table `Met` allows the name. The table covers: table name, database qualifier (denied when its list is absent), column bare or in backticks, function ident, upper-cased function name (denied when its list is absent) |
| `Policy.ColNameIsFirstBreach` | sql.go:368-374 | checking a column reference means discharging the qualifier's table rule, then the column rule |
| `Policy.MessageIdentifiesViolation` | sql.go:346-410 | two violations that write the same message are the same violation, offending name included |
| `Policy.FuncNameCaseInsensitive` | sql.go:403-406 | the function-name rule sees the name only through upper-casing, so two names that upper-case alike pass or fail together |
| `Policy.LowerCaseFuncListAdmitsNothing` | sql.go:403-404 | list entries are not upper-cased, so a function-name list whose every entry has a lower-case letter admits no call |
| `Policy.AbsentClosedSlotIsEmpty` | sql.go:352-410 | for every single rule, an absent database list and an absent function-name list rule exactly like empty lists, message included |
| `Guard.StmtWalkIsFirstBreach` | sql.go:32-93 | the short-circuit statement walk gives exactly the outcome (message included) of the first unmet obligation of the statement in traversal order. The clause order is: select items, FROM, WHERE, GROUP BY, HAVING, ORDER BY, LIMIT offset, LIMIT row count |
| `Guard.TableExprWalkIsFirstBreach` | sql.go:95-127 | the same for a FROM entry: the left side, the right side, then the ON condition of a join |
| `Guard.SimpleTableExprWalkIsFirstBreach` | sql.go:307-321 | the same for a table or derived table |
| `Guard.SelectExprWalkIsFirstBreach` | sql.go:323-339 | the same for a select item |
| `Guard.ExprWalkIsFirstBreach` | sql.go:129-305 | the same for an expression, for each of its node kinds |
| `GuardProperties.StmtPassesIffAllMet` | sql.go:32-93 | a statement passes exactly when it contains no refused node and every name it raises meets its category's rule |
| `GuardProperties.StmtRejectsAtFirstUnmet` | sql.go:39-86 | a rejection is the violation of the first unmet obligation, and every earlier obligation is met |
| `GuardProperties.UnmetObligationRejects` | sql.go:201-204 | an unmet obligation anywhere in the tree rejects the whole statement, including one inside nested subqueries |
| `GuardProperties.StmtPassesUnderWiderLists` | sql.go:341-413 | widening any allowlist, which includes removing a table, column or ident list, never turns a pass into a rejection |
| `GuardProperties.SameRulingsSameOutcome` | sql.go:341-413 | two sets of allowlists that rule alike on every obligation of a statement give it the same outcome, message included |
| `GuardProperties.AbsentDatabasesActAsEmpty` | sql.go:352-363 | with no database list, every statement gets the same outcome as with an empty one |
| `GuardProperties.AbsentFuncNamesActAsEmpty` | sql.go:403-410 | with no function-name list, every statement gets the same outcome as with an empty one |
| `GuardProperties.AbsentOpenSlotsAdmitAll` | sql.go:346-401 | dropping the table, column and ident lists keeps every passing statement passing |
| `GuardProperties.OnlySelectIsWalked` | sql.go:32-90 | a nil statement passes, and any other non-SELECT is rejected with "bad stmt operation" whatever the lists |
| `GuardProperties.LeavesAlwaysPass` | sql.go:187-206 | literals, NULL, booleans, list arguments and bare column references raise no obligation and pass whatever the lists |
| `GuardProperties.ValuesFuncAlwaysRejected` | sql.go:254-256 | `VALUES(col)` is rejected with "bad values expr" whatever the lists |
| `GuardProperties.SubqueriesWalkedWithSameLists` | sql.go:201-204 | a subquery in an expression has exactly the outcome and the obligations of its statement under the same lists |
| `GuardProperties.ExistsWalkedWithSameLists` | sql.go:183-186 | the same for the subquery of EXISTS |
| `GuardProperties.DerivedTablesWalkedWithSameLists` | sql.go:315-316 | the same for a derived table in FROM |
| `GuardExamples.QualifierNeedsDatabaseList` | sql.go:352-363 | with no database list, `SELECT a FROM db.t` is rejected for its qualifier and `SELECT a FROM t` passes |
| `GuardExamples.FunctionsDeniedByDefault` | sql.go:403-410 | with no function-name list, `SELECT COUNT(*) FROM t` is rejected with "bad func name for COUNT" |
| `GuardExamples.ListedFunctionPasses` | sql.go:403-404 | `SELECT count(*) FROM t` passes once "COUNT" is listed |
| `GuardExamples.ColumnListPasses` | sql.go:193-194 | a select list made of one bare column passes whatever the allowlists, column list included |
| `GuardExamples.ListedTablePasses` | sql.go:341-350 | `FROM table` passes when the table list admits the table, which includes there being no table list |
| `GuardExamples.NestedQuery` | sql.go:201-204 | `SELECT c FROM t WHERE t.id IN (sub)` over a listed table has exactly the outcome of `sub` |
| `GuardExamples.InnermostViolationReported` | sql.go:201-204 | an unlisted table two subqueries deep is the violation reported for the whole statement |

## Left out

- Parsing. `CheckSQL`'s call to the SQL parser and its pass-through of the parse error (sql.go:22-26) are not modelled, because the parser is an external library. The model starts from a tree.
- The context lookups. The `context.Context` values and their `.([]string)` assertions are replaced by the five-slot `Allowlists` record. A missing key and a value of another type are both `None`.
- Node payloads. Operators, literal texts, type names, join kinds, USING clauses, aliases, index hints and the internals of non-SELECT statements are not modelled, because the guard never reads them.
- EXISTS. `ExistsExpr` holds the subquery's statement directly. In Go it holds a `*Subquery` that goes through `checkExpr`'s subquery case, which gives the same outcome.
- Nil pointers. A typed nil pointer inside an interface, such as a nil `*ColName` in `SUBSTRING`, makes Go panic. The model has no such values.
- Policy.ToUpper: models ASCII upper-casing only, because Unicode case mapping is not modelled. Non-ASCII letters are left unchanged.
- Identifier helpers. `String()`/`IsEmpty()` of the parser's identifier types are taken as plain strings and the empty-string test.
- Message formatting. `fmt.Sprintf` is modelled as string concatenation.
- Recursion depth. There is no limit: the walk is total on every finite tree.
- `SafeSqlFunc` (sql.go:11-16) is an unused constant and is not modelled.
- The JSON tag on `Record` is not modelled.
- Idempotence. No lemma states it. The walk is a function of the tree and the lists, and `CheckSql` starts from a fresh record, so two calls with the same arguments give the same results by their contracts.
