/**
 What the guard promises about a whole statement, derived from the walk
 theorem `StmtWalkIsFirstBreach`, and the promises about single node kinds
 that hold whatever the allowlists are.
 */
module GuardProperties {
  import opened SqlParser
  import opened Policy
  import opened Guard

  /** A statement passes exactly when every identifier rule it raises is met
      and it contains no refused node. */
  lemma StmtPassesIffAllMet(stmt: Stmt, cfg: Allowlists)
    ensures StmtOutcome(stmt, cfg).Pass? <==>
            forall k :: 0 <= k < |StmtObligations(stmt)| ==> Met(StmtObligations(stmt)[k], cfg)
  {
    StmtWalkIsFirstBreach(stmt, cfg);
    FirstBreachPassesIffAllMet(StmtObligations(stmt), cfg);
  }

  /** A rejected statement is rejected with the violation of its first unmet
      obligation in traversal order; every obligation before it is met. */
  lemma StmtRejectsAtFirstUnmet(stmt: Stmt, cfg: Allowlists)
    requires StmtOutcome(stmt, cfg).Reject?
    ensures exists i :: 0 <= i < |StmtObligations(stmt)|
                        && !Met(StmtObligations(stmt)[i], cfg)
                        && (forall k :: 0 <= k < i ==> Met(StmtObligations(stmt)[k], cfg))
                        && StmtOutcome(stmt, cfg) == RuleOutcome(StmtObligations(stmt)[i], cfg)
  {
    StmtWalkIsFirstBreach(stmt, cfg);
    FirstBreachIsFirstUnmet(StmtObligations(stmt), cfg);
  }

  /** A violation anywhere in the tree, however deeply nested in subqueries,
      rejects the whole statement. */
  lemma UnmetObligationRejects(stmt: Stmt, ob: Obligation, cfg: Allowlists)
    requires ob in StmtObligations(stmt)
    requires !Met(ob, cfg)
    ensures StmtOutcome(stmt, cfg).Reject?
  {
    StmtPassesIffAllMet(stmt, cfg);
  }

  /** Widening the allowlists never turns a passing statement into a failing one. */
  lemma StmtPassesUnderWiderLists(stmt: Stmt, narrow: Allowlists, wide: Allowlists)
    requires Widens(narrow, wide)
    requires StmtOutcome(stmt, narrow).Pass?
    ensures StmtOutcome(stmt, wide).Pass?
  {
    StmtWalkIsFirstBreach(stmt, narrow);
    StmtWalkIsFirstBreach(stmt, wide);
    FirstBreachUnderWiderLists(StmtObligations(stmt), narrow, wide);
  }

  /** Allowlists that rule the same way on every obligation of a statement
      give it the same outcome, message included. */
  lemma SameRulingsSameOutcome(stmt: Stmt, c1: Allowlists, c2: Allowlists)
    requires forall k :: 0 <= k < |StmtObligations(stmt)| ==>
               RuleOutcome(StmtObligations(stmt)[k], c1) == RuleOutcome(StmtObligations(stmt)[k], c2)
    ensures StmtOutcome(stmt, c1) == StmtOutcome(stmt, c2)
  {
    StmtWalkIsFirstBreach(stmt, c1);
    StmtWalkIsFirstBreach(stmt, c2);
    FirstBreachAgrees(StmtObligations(stmt), c1, c2);
  }

  /** An absent database list rejects every qualified table exactly as an
      empty list would, message included. */
  lemma AbsentDatabasesActAsEmpty(stmt: Stmt, cfg: Allowlists)
    requires cfg.databases.None?
    ensures StmtOutcome(stmt, cfg) == StmtOutcome(stmt, cfg.(databases := Some([])))
  {
    SameRulingsSameOutcome(stmt, cfg, cfg.(databases := Some([])));
  }

  /** An absent function-name list rejects every named call exactly as an
      empty list would, message included. */
  lemma AbsentFuncNamesActAsEmpty(stmt: Stmt, cfg: Allowlists)
    requires cfg.funcNames.None?
    ensures StmtOutcome(stmt, cfg) == StmtOutcome(stmt, cfg.(funcNames := Some([])))
  {
    SameRulingsSameOutcome(stmt, cfg, cfg.(funcNames := Some([])));
  }

  /** An absent table list admits every table name: removing the list
      never turns a pass into a failure. The same holds for the column
      and ident lists. */
  lemma AbsentOpenSlotsAdmitAll(stmt: Stmt, cfg: Allowlists)
    requires StmtOutcome(stmt, cfg).Pass?
    ensures StmtOutcome(stmt, cfg.(tables := None, columns := None, funcIdents := None)).Pass?
  {
    StmtPassesUnderWiderLists(stmt, cfg, cfg.(tables := None, columns := None, funcIdents := None));
  }

  // ---------------------------------------------------------------------
  // Node kinds whose outcome does not depend on the allowlists.

  /** Only a SELECT is walked: nil passes, every other statement kind is
      "bad stmt operation". */
  lemma OnlySelectIsWalked(stmt: Stmt, cfg: Allowlists)
    requires !stmt.Select?
    ensures stmt.NilStmt? ==> StmtOutcome(stmt, cfg) == Pass
    ensures stmt.OtherStmt? ==> StmtOutcome(stmt, cfg) == Reject(BadStmt)
                                && Message(BadStmt) == "bad stmt operation"
  {
  }

  /** Literals, NULL, booleans, list arguments and bare column references
      raise no obligation, so they pass whatever the allowlists. */
  lemma LeavesAlwaysPass(e: Expr, cfg: Allowlists)
    requires e.SqlVal? || e.NullVal? || e.BoolVal? || e.ListArg? || e.ColNameExpr?
    ensures ExprObligations(e) == []
    ensures ExprOutcome(e, cfg) == Pass
  {
  }

  /** VALUES(col) is always refused with "bad values expr". */
  lemma ValuesFuncAlwaysRejected(col: ColName, cfg: Allowlists)
    ensures ExprOutcome(ValuesFuncExpr(col), cfg) == Reject(BadValuesExpr)
    ensures Message(BadValuesExpr) == "bad values expr"
  {
  }

  /** A subquery in an expression is walked as a statement of its own with
      the same allowlists. */
  lemma SubqueriesWalkedWithSameLists(sub: Stmt, cfg: Allowlists)
    ensures ExprOutcome(Subquery(sub), cfg) == StmtOutcome(sub, cfg)
    ensures ExprObligations(Subquery(sub)) == StmtObligations(sub)
  {
  }

  /** So is the subquery of EXISTS. */
  lemma ExistsWalkedWithSameLists(sub: Stmt, cfg: Allowlists)
    ensures ExprOutcome(ExistsExpr(sub), cfg) == StmtOutcome(sub, cfg)
    ensures ExprObligations(ExistsExpr(sub)) == StmtObligations(sub)
  {
  }

  /** So is a derived table in the FROM list. */
  lemma DerivedTablesWalkedWithSameLists(sub: Stmt, cfg: Allowlists)
    ensures TableExprOutcome(AliasedTableExpr(SubqueryTable(sub)), cfg) == StmtOutcome(sub, cfg)
    ensures TableExprObligations(AliasedTableExpr(SubqueryTable(sub))) == StmtObligations(sub)
  {
  }
}
