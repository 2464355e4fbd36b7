/** SQL expressions with the three-valued meaning PostgreSQL gives them. */
module Sql {
  import opened Gucs
  import opened Keys

  datatype Value = Null | Bool(b: bool) | Text(text: string) | Key(key: int)

  type Row = map<string, Value>

  /** What an expression reads: the session's settings, and the tables as its subqueries see them. */
  datatype Env = Env(settings: map<string, string>, tables: map<string, seq<Row>>)

  /** `Setting`: `current_setting(name, true)` in a scalar sub-select. `CaseTrue`: `CASE WHEN condition
      THEN true ELSE otherwise END`. `Column` names its table's alias. */
  datatype Expr =
    | Setting(name: string)
    | TextLiteral(text: string)
    | Column(table: string, name: string)
    | NullIf(value: Expr, other: Expr)
    | AsKey(value: Expr)
    | Equals(left: Expr, right: Expr)
    | And(left: Expr, right: Expr)
    | Or(left: Expr, right: Expr)
    | CaseTrue(condition: Expr, otherwise: Expr)
    | Exists(table: string, alias: string, where: Expr)

  function EqualTo(a: Value, b: Value): Value {
    if a.Null? || b.Null? then Null else Bool(a == b)
  }

  /** False wins over unknown. */
  function Both(a: Value, b: Value): Value {
    if a == Bool(false) || b == Bool(false) then Bool(false)
    else if a == Bool(true) && b == Bool(true) then Bool(true)
    else Null
  }

  /** True wins over unknown. */
  function Either(a: Value, b: Value): Value {
    if a == Bool(true) || b == Bool(true) then Bool(true)
    else if a == Bool(false) && b == Bool(false) then Bool(false)
    else Null
  }

  function RowsOf(env: Env, table: string): seq<Row> {
    if table in env.tables then env.tables[table] else []
  }

  /** The value of `e` for the rows in scope, by alias. */
  function Eval(e: Expr, env: Env, scope: map<string, Row>): Value
    decreases e
  {
    match e
    case Setting(name) => if name in env.settings then Text(env.settings[name]) else Null
    case TextLiteral(text) => Text(text)
    case Column(table, name) => if table in scope && name in scope[table] then scope[table][name] else Null
    case NullIf(a, b) =>
      if EqualTo(Eval(a, env, scope), Eval(b, env, scope)) == Bool(true) then Null else Eval(a, env, scope)
    case AsKey(a) =>
      var v := Eval(a, env, scope);
      if v.Text? then Value.Key(Parse(v.text)) else Null
    case Equals(a, b) => EqualTo(Eval(a, env, scope), Eval(b, env, scope))
    case And(a, b) => Both(Eval(a, env, scope), Eval(b, env, scope))
    case Or(a, b) => Either(Eval(a, env, scope), Eval(b, env, scope))
    case CaseTrue(condition, otherwise) =>
      if Eval(condition, env, scope) == Bool(true) then Bool(true) else Eval(otherwise, env, scope)
    case Exists(table, alias, where) =>
      var rows := RowsOf(env, table);
      Bool(exists i :: 0 <= i < |rows| && Eval(where, env, scope[alias := rows[i]]) == Bool(true))
  }

  /** A row passes a `WHERE` clause or a policy when the expression is true, not false or unknown. */
  predicate Holds(e: Expr, env: Env, scope: map<string, Row>) {
    Eval(e, env, scope) == Bool(true)
  }

  /** `a OR b OR c` */
  function AnyOf(conditions: seq<Expr>): Expr
    requires conditions != []
  {
    if |conditions| == 1 then conditions[0]
    else Or(AnyOf(conditions[..|conditions| - 1]), conditions[|conditions| - 1])
  }

  /** A disjunction is true exactly when one of its conditions is. */
  lemma {:induction false} AnyOfHolds(conditions: seq<Expr>, env: Env, scope: map<string, Row>)
    requires conditions != []
    ensures Holds(AnyOf(conditions), env, scope) <==>
              exists i :: 0 <= i < |conditions| && Holds(conditions[i], env, scope)
  {
    var n := |conditions| - 1;
    if n > 0 {
      var init := conditions[..n];
      AnyOfHolds(init, env, scope);
      assert forall i :: 0 <= i < n ==> init[i] == conditions[i];
    }
  }

  function FilterRows(rows: seq<Row>, keep: Row -> bool): (kept: seq<Row>)
    ensures forall r :: r in kept <==> r in rows && keep(r)
  {
    if rows == [] then []
    else
      var init := FilterRows(rows[..|rows| - 1], keep);
      if keep(rows[|rows| - 1]) then init + [rows[|rows| - 1]] else init
  }

  /** Filters that agree on every row keep the same rows. */
  lemma {:induction false} SameFilter(rows: seq<Row>, keep1: Row -> bool, keep2: Row -> bool)
    requires forall r :: r in rows ==> keep1(r) == keep2(r)
    ensures FilterRows(rows, keep1) == FilterRows(rows, keep2)
  {
    if rows != [] {
      SameFilter(rows[..|rows| - 1], keep1, keep2);
    }
  }

  /** A filter every row passes changes nothing. */
  lemma {:induction false} PassingFilter(rows: seq<Row>, keep: Row -> bool)
    requires forall r :: r in rows ==> keep(r)
    ensures FilterRows(rows, keep) == rows
  {
    if rows != [] {
      PassingFilter(rows[..|rows| - 1], keep);
    }
  }

  lemma {:induction false} NothingPasses(rows: seq<Row>, keep: Row -> bool)
    requires forall r :: r in rows ==> !keep(r)
    ensures FilterRows(rows, keep) == []
  {
    if rows != [] {
      NothingPasses(rows[..|rows| - 1], keep);
    }
  }
}
