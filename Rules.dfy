/**
 The policy side of the guard: the five optional allowlists, the
 violations a check can report with the message each one leaves in the
 result, and the identifier rules that test one name against one list
 (checkTableName, checkColName, checkColNameString and checkFuncName in
 sql.go).

 `Met` restates the identifier rules as a single table, one row per
 category, independent of the order in which sql.go tests things; the
 lemmas below show the rules agree with it and draw the consequences
 (widening an allowlist never turns a pass into a failure, an absent
 database or function-name list behaves as an empty one).
 */
module Policy {
  import opened SqlParser

  /** The context values "Allow-Table-Name", "Allow-DataBase-Name",
      "Allow-Col-Name", "Allow-Func-Name" and "Allow-Func-Ident".
      `None` is a key that is missing or does not hold a []string;
      `Some([])` is a key that holds an empty list, a different state. */
  datatype Allowlists = Allowlists(
    tables: Option<seq<string>>,
    databases: Option<seq<string>>,
    columns: Option<seq<string>>,
    funcNames: Option<seq<string>>,
    funcIdents: Option<seq<string>>)

  /** Every way a check can fail. */
  datatype Violation =
    | BadStmt
    | BadTableExpr
    | BadSimpleTableExpr
    | BadSelectExpr
    | BadValuesExpr
    | BadTableName(name: string)
    | BadTableQualifier(qualifier: string)
    | BadColumn(column: string)
    | BadFuncIdent(ident: string)
    | BadFuncName(funcName: string)
    | UnknownExpr    // an expression kind outside the dispatch
    | NamelessFunc   // a function call with neither name nor qualifier

  /** The result of checking one node: pass, or the first violation met. */
  datatype Outcome = Pass | Reject(violation: Violation)

  /** Check `first`, and only when it passes go on to `rest`. */
  function Then(first: Outcome, rest: Outcome): Outcome
  {
    if first.Pass? then rest else first
  }

  /** The two failures that return false without writing Record.Msg. */
  predicate Silent(v: Violation)
  {
    v.UnknownExpr? || v.NamelessFunc?
  }

  /** The text written into Record.Msg at a failure site: the fixed text
      of the failure site followed by the offending name, if any. */
  function Message(v: Violation): string
    requires !Silent(v)
  {
    Head(v) + Subject(v)
  }

  /** The fixed text of each message, without the offending name. */
  function Head(v: Violation): string
    requires !Silent(v)
  {
    match v
    case BadStmt => "bad stmt operation"
    case BadTableExpr => "bad table expr"
    case BadSimpleTableExpr => "bad simple table expr"
    case BadSelectExpr => "bad select expr"
    case BadValuesExpr => "bad values expr"
    case BadTableName(_) => "bad table name for "
    case BadTableQualifier(_) => "bad table qualifier for "
    case BadColumn(_) => "bad table col for "
    case BadFuncIdent(_) => "bad func ident for "
    case BadFuncName(_) => "bad func name for "
  }

  /** The offending name a message carries, "" for the fixed ones. */
  function Subject(v: Violation): string
  {
    match v
    case BadTableName(name) => name
    case BadTableQualifier(qualifier) => qualifier
    case BadColumn(column) => column
    case BadFuncIdent(ident) => ident
    case BadFuncName(funcName) => funcName
    case _ => ""
  }

  /** What follows the fixed text `head` in `m`. */
  function After(m: string, head: string): string
  {
    if |head| <= |m| then m[|head|..] else m
  }

  /** The violation a message text names. The fixed texts differ in one of
      the characters at positions 4, 5, 9 and 10. */
  function Parse(m: string): Violation
    requires |m| >= 11
  {
    if m[4] == 'v' then BadValuesExpr
    else if m[4] == 'f' then
      (if m[9] == 'i' then BadFuncIdent(After(m, Head(BadFuncIdent(""))))
       else BadFuncName(After(m, Head(BadFuncName("")))))
    else if m[4] == 's' then
      (if m[5] == 't' then BadStmt
       else if m[5] == 'i' then BadSimpleTableExpr
       else BadSelectExpr)
    else if m[10] == 'e' then BadTableExpr
    else if m[10] == 'n' then BadTableName(After(m, Head(BadTableName(""))))
    else if m[10] == 'q' then BadTableQualifier(After(m, Head(BadTableQualifier(""))))
    else BadColumn(After(m, Head(BadColumn(""))))
  }

  /** Reading a message back gives the violation that wrote it. */
  lemma ParseMessage(v: Violation)
    requires !Silent(v)
    ensures |Message(v)| >= 11 && Parse(Message(v)) == v
  {
    var h, s := Head(v), Subject(v);
    assert After(h + s, h) == s by {
      assert (h + s)[|h|..] == s;
    }
  }

  /** The message names the violation: two violations that leave the same
      text in Record.Msg are the same violation, offending name included. */
  lemma MessageIdentifiesViolation(v1: Violation, v2: Violation)
    requires !Silent(v1) && !Silent(v2)
    requires Message(v1) == Message(v2)
    ensures v1 == v2
  {
    ParseMessage(v1);
    ParseMessage(v2);
  }

  /** Record.Msg after a check with outcome `o` that started with Msg == `msg`:
      a failure site writes its message once and every caller returns false
      straight away, so only the first violation's message is ever written. */
  function Recorded(msg: string, o: Outcome): string
  {
    if o.Reject? && !Silent(o.violation) then Message(o.violation) else msg
  }

  /** ASCII upper-casing of one character. */
  function UpperChar(c: char): char
  {
    if 'a' <= c <= 'z' then (c as int - 32) as char else c
  }

  /** strings.ToUpper, on ASCII letters. */
  function ToUpper(s: string): (u: string)
    ensures |u| == |s|
    ensures forall i :: 0 <= i < |s| ==> u[i] == UpperChar(s[i])
  {
    if s == [] then [] else [UpperChar(s[0])] + ToUpper(s[1..])
  }

  // ---------------------------------------------------------------------
  // The identifier rules, in the order sql.go tests them.

  /** checkTableName: an empty name passes; otherwise the name against the
      table list (when present), then the qualifier against the database
      list (a non-empty qualifier fails when that list is absent). */
  function TableNameOutcome(t: TableName, cfg: Allowlists): (o: Outcome)
    ensures o.Reject? ==> o.violation == BadTableName(t.name) || o.violation == BadTableQualifier(t.qualifier)
    ensures o == Reject(BadTableName(t.name)) <==> t.name != "" && !Admits(cfg.tables, t.name)
    ensures o == Reject(BadTableQualifier(t.qualifier)) <==>
              t.name != "" && Admits(cfg.tables, t.name) && t.qualifier != "" && !Lists(cfg.databases, t.qualifier)
  {
    if t.name == "" then Pass
    else if cfg.tables.Some? && t.name !in cfg.tables.value then Reject(BadTableName(t.name))
    else if cfg.databases.Some? then
      if t.qualifier != "" && t.qualifier !in cfg.databases.value
      then Reject(BadTableQualifier(t.qualifier)) else Pass
    else if t.qualifier != "" then Reject(BadTableQualifier(t.qualifier))
    else Pass
  }

  /** checkColNameString: an empty name passes; a present column list must
      hold the name bare or wrapped in backticks. */
  function ColNameStringOutcome(column: string, cfg: Allowlists): (o: Outcome)
    ensures o.Reject? ==> o.violation == BadColumn(column)
    ensures o == Reject(BadColumn(column)) <==>
              column != "" && !Admits(cfg.columns, column) && !Lists(cfg.columns, "`" + column + "`")
  {
    if |column| == 0 then Pass
    else if cfg.columns.Some? && column !in cfg.columns.value
            && "`" + column + "`" !in cfg.columns.value
    then Reject(BadColumn(column))
    else Pass
  }

  /** checkColName: the qualifier as a table reference, then the column name. */
  function ColNameOutcome(col: ColName, cfg: Allowlists): (o: Outcome)
    ensures o.Pass? <==> Met(TableRule(col.qualifier), cfg) && Met(ColumnRule(col.name), cfg)
  {
    Then(TableNameOutcome(col.qualifier, cfg), ColNameStringOutcome(col.name, cfg))
  }

  /** checkFuncName: a call with neither name nor ident fails silently; a
      non-empty ident must be in a present ident list; the upper-cased name
      must be in the function-name list, and an absent list rejects it. */
  function FuncNameOutcome(ident: string, funcName: string, cfg: Allowlists): (o: Outcome)
    ensures o.Reject? ==> o.violation in [NamelessFunc, BadFuncIdent(ident), BadFuncName(funcName)]
    ensures o == Reject(NamelessFunc) <==> ident == "" && funcName == ""
    ensures o == Reject(BadFuncIdent(ident)) <==> ident != "" && !Admits(cfg.funcIdents, ident)
    ensures o == Reject(BadFuncName(funcName)) <==>
              (ident != "" || funcName != "") && (ident == "" || Admits(cfg.funcIdents, ident))
              && !Lists(cfg.funcNames, ToUpper(funcName))
  {
    if |funcName| == 0 && |ident| == 0 then Reject(NamelessFunc)
    else if |ident| != 0 && cfg.funcIdents.Some? && ident !in cfg.funcIdents.value
    then Reject(BadFuncIdent(ident))
    else if cfg.funcNames.Some? && ToUpper(funcName) !in cfg.funcNames.value
    then Reject(BadFuncName(funcName))
    else if cfg.funcNames.None? then Reject(BadFuncName(funcName))
    else Pass
  }

  // ---------------------------------------------------------------------
  // Obligations: one identifier rule applied to one name, or a node shape
  // that is refused outright.

  datatype Obligation =
    | TableRule(table: TableName)
    | ColumnRule(column: string)
    | FuncRule(ident: string, funcName: string)
    | Refused(refusal: Violation)

  /** The outcome of discharging one obligation. */
  function RuleOutcome(ob: Obligation, cfg: Allowlists): Outcome
  {
    match ob
    case TableRule(t) => TableNameOutcome(t, cfg)
    case ColumnRule(c) => ColNameStringOutcome(c, cfg)
    case FuncRule(i, n) => FuncNameOutcome(i, n, cfg)
    case Refused(v) => Reject(v)
  }

  /** A slot whose absence means "anything goes": tables, columns, idents. */
  predicate Admits(slot: Option<seq<string>>, x: string)
  {
    slot.None? || x in slot.value
  }

  /** A slot whose absence means "nothing goes": databases, function names. */
  predicate Lists(slot: Option<seq<string>>, x: string)
  {
    slot.Some? && x in slot.value
  }

  /** Whether an obligation is met, one row per identifier category:
      | table      | empty name, or admitted by the table list and (no qualifier or a listed database) |
      | column     | empty name, or admitted bare, or listed in backticks |
      | function   | named or qualified, ident empty or admitted, upper-cased name listed |
      | refused    | never | */
  predicate Met(ob: Obligation, cfg: Allowlists)
  {
    match ob
    case TableRule(t) =>
      t.name == "" || (Admits(cfg.tables, t.name) && (t.qualifier == "" || Lists(cfg.databases, t.qualifier)))
    case ColumnRule(c) =>
      c == "" || Admits(cfg.columns, c) || Lists(cfg.columns, "`" + c + "`")
    case FuncRule(i, n) =>
      (i != "" || n != "") && (i == "" || Admits(cfg.funcIdents, i)) && Lists(cfg.funcNames, ToUpper(n))
    case Refused(_) => false
  }

  /** The rules as sql.go orders them pass exactly when the table says so. */
  lemma RuleOutcomeMatchesTable(ob: Obligation, cfg: Allowlists)
    ensures RuleOutcome(ob, cfg).Pass? <==> Met(ob, cfg)
  {
    match ob
    case FuncRule(i, n) =>
      assert |i| == 0 <==> i == "";
      assert |n| == 0 <==> n == "";
    case _ =>
  }

  /** The outcome of the first obligation in `obs` that fails, or Pass. */
  function FirstBreach(obs: seq<Obligation>, cfg: Allowlists): Outcome
  {
    if obs == [] then Pass else Then(RuleOutcome(obs[0], cfg), FirstBreach(obs[1..], cfg))
  }

  lemma FirstBreachSingle(ob: Obligation, cfg: Allowlists)
    ensures FirstBreach([ob], cfg) == RuleOutcome(ob, cfg)
  {
    assert [ob][1..] == [];
  }

  lemma {:induction false} FirstBreachAppend(a: seq<Obligation>, b: seq<Obligation>, cfg: Allowlists)
    ensures FirstBreach(a + b, cfg) == Then(FirstBreach(a, cfg), FirstBreach(b, cfg))
  {
    if a != [] {
      assert (a + b)[0] == a[0];
      assert (a + b)[1..] == a[1..] + b;
      FirstBreachAppend(a[1..], b, cfg);
    } else {
      assert a + b == b;
    }
  }

  /** A sequence of obligations passes exactly when every one is met. */
  lemma {:induction false} FirstBreachPassesIffAllMet(obs: seq<Obligation>, cfg: Allowlists)
    ensures FirstBreach(obs, cfg).Pass? <==> forall k :: 0 <= k < |obs| ==> Met(obs[k], cfg)
  {
    if obs != [] {
      RuleOutcomeMatchesTable(obs[0], cfg);
      FirstBreachPassesIffAllMet(obs[1..], cfg);
      assert forall k :: 1 <= k < |obs| ==> obs[k] == obs[1..][k - 1];
    }
  }

  /** A failure is the outcome of the first unmet obligation: every earlier
      one is met, and nothing after it is looked at. */
  lemma {:induction false} FirstBreachIsFirstUnmet(obs: seq<Obligation>, cfg: Allowlists)
    requires FirstBreach(obs, cfg).Reject?
    ensures exists i :: 0 <= i < |obs| && !Met(obs[i], cfg)
                        && (forall k :: 0 <= k < i ==> Met(obs[k], cfg))
                        && FirstBreach(obs, cfg) == RuleOutcome(obs[i], cfg)
  {
    RuleOutcomeMatchesTable(obs[0], cfg);
    if RuleOutcome(obs[0], cfg).Pass? {
      FirstBreachIsFirstUnmet(obs[1..], cfg);
      var i :| 0 <= i < |obs[1..]| && !Met(obs[1..][i], cfg)
               && (forall k :: 0 <= k < i ==> Met(obs[1..][k], cfg))
               && FirstBreach(obs[1..], cfg) == RuleOutcome(obs[1..][i], cfg);
      assert forall k :: 1 <= k < i + 1 ==> obs[k] == obs[1..][k - 1];
      assert !Met(obs[i + 1], cfg) && FirstBreach(obs, cfg) == RuleOutcome(obs[i + 1], cfg);
    } else {
      assert !Met(obs[0], cfg) && FirstBreach(obs, cfg) == RuleOutcome(obs[0], cfg);
    }
  }

  /** Two configurations that decide every obligation of `obs` the same way
      give the same outcome, message included. */
  lemma {:induction false} FirstBreachAgrees(obs: seq<Obligation>, c1: Allowlists, c2: Allowlists)
    requires forall k :: 0 <= k < |obs| ==> RuleOutcome(obs[k], c1) == RuleOutcome(obs[k], c2)
    ensures FirstBreach(obs, c1) == FirstBreach(obs, c2)
  {
    if obs != [] {
      assert forall k :: 0 <= k < |obs[1..]| ==> obs[1..][k] == obs[k + 1];
      FirstBreachAgrees(obs[1..], c1, c2);
    }
  }

  /** checkColName discharges the qualifier's table rule, then the column rule. */
  lemma ColNameIsFirstBreach(col: ColName, cfg: Allowlists)
    ensures ColNameOutcome(col, cfg) == FirstBreach([TableRule(col.qualifier), ColumnRule(col.name)], cfg)
  {
    var obs := [TableRule(col.qualifier), ColumnRule(col.name)];
    assert obs[1..] == [ColumnRule(col.name)];
    FirstBreachSingle(ColumnRule(col.name), cfg);
  }

  // ---------------------------------------------------------------------
  // Widening the allowlists.

  /** `wide` admits at least what `narrow` admits in a slot where absence
      means "anything goes". */
  predicate WidensOpen(narrow: Option<seq<string>>, wide: Option<seq<string>>)
  {
    wide.None? || (narrow.Some? && forall x :: x in narrow.value ==> x in wide.value)
  }

  /** The same for a slot where absence means "nothing goes". */
  predicate WidensClosed(narrow: Option<seq<string>>, wide: Option<seq<string>>)
  {
    narrow.None? || (wide.Some? && forall x :: x in narrow.value ==> x in wide.value)
  }

  /** Every slot of `wide` admits at least the names `narrow` admits. */
  predicate Widens(narrow: Allowlists, wide: Allowlists)
  {
    && WidensOpen(narrow.tables, wide.tables)
    && WidensClosed(narrow.databases, wide.databases)
    && WidensOpen(narrow.columns, wide.columns)
    && WidensClosed(narrow.funcNames, wide.funcNames)
    && WidensOpen(narrow.funcIdents, wide.funcIdents)
  }

  lemma MetUnderWiderLists(ob: Obligation, narrow: Allowlists, wide: Allowlists)
    requires Widens(narrow, wide)
    requires Met(ob, narrow)
    ensures Met(ob, wide)
  {
  }

  /** Obligations met under `narrow` stay met under any wider configuration. */
  lemma {:induction false} FirstBreachUnderWiderLists(obs: seq<Obligation>, narrow: Allowlists, wide: Allowlists)
    requires Widens(narrow, wide)
    requires FirstBreach(obs, narrow).Pass?
    ensures FirstBreach(obs, wide).Pass?
  {
    FirstBreachPassesIffAllMet(obs, narrow);
    FirstBreachPassesIffAllMet(obs, wide);
    forall k | 0 <= k < |obs|
      ensures Met(obs[k], wide)
    {
      MetUnderWiderLists(obs[k], narrow, wide);
    }
  }

  /** For the database and function-name slots an absent list behaves
      exactly like an empty one, for every obligation, message included;
      for the table, column and ident slots it does not (absence admits all). */
  lemma AbsentClosedSlotIsEmpty(ob: Obligation, cfg: Allowlists)
    requires cfg.databases.None? && cfg.funcNames.None?
    ensures RuleOutcome(ob, cfg) == RuleOutcome(ob, cfg.(databases := Some([]), funcNames := Some([])))
  {
  }

  /** Function names are upper-cased before the lookup and list entries are
      not: a function-name list whose every entry has a lower-case letter
      admits no function at all. */
  lemma LowerCaseFuncListAdmitsNothing(ident: string, funcName: string, cfg: Allowlists)
    requires cfg.funcNames.Some?
    requires forall e :: e in cfg.funcNames.value ==> HasLowerAscii(e)
    ensures FuncNameOutcome(ident, funcName, cfg).Reject?
  {
  }

  predicate HasLowerAscii(s: string)
  {
    exists k :: 0 <= k < |s| && 'a' <= s[k] <= 'z'
  }

  /** The function-name rule sees the name only through ToUpper: two names
      that upper-case alike pass or fail together. */
  lemma FuncNameCaseInsensitive(ident: string, n1: string, n2: string, cfg: Allowlists)
    requires ToUpper(n1) == ToUpper(n2)
    ensures FuncNameOutcome(ident, n1, cfg).Pass? == FuncNameOutcome(ident, n2, cfg).Pass?
  {
    assert |n1| == |ToUpper(n1)| == |n2|;
  }
}
