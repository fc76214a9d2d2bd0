/**
 * Worked statements: for example call chains, the exact text the builder
 * renders, for any table, column names and values. Each example is split
 * into the state the calls leave (a `...State` lemma), the text that
 * follows the table name (a `...Text` lemma) and the statement itself.
 */
module Examples {
  import opened Wrappers
  import opened Text
  import opened Sql
  import opened Calls

  /**
   * Render split at the table name: what comes before it is fixed by the
   * select list, what comes after it by the three sections.
   */
  lemma RenderAroundTable(s: State, columns: string, tail: string)
    requires Join(", ", s.columns) == columns
    requires WhereSection(s.clauses) + OrderBySection(s.orderBy) + LimitSection(s.limit) == tail
    ensures Render(s) == "SELECT " + columns + " FROM " + s.table + (" " + tail)
  {
    var before := "SELECT " + columns + " FROM " + s.table;
    var w, o, l := WhereSection(s.clauses), OrderBySection(s.orderBy), LimitSection(s.limit);
    assert Render(s) == before + " " + w + o + l;
    ConcatAssoc(before + " ", w, o + l);
    ConcatAssoc(w, o, l);
    ConcatAssoc(before, " ", tail);
  }

  /** What follows the table name in a statement: a space, then the three sections. */
  function AfterTable(clauses: seq<Clause>, orderBy: string, limit: int): string
  {
    " " + (WhereSection(clauses) + OrderBySection(orderBy) + LimitSection(limit))
  }

  lemma SelectStar()
    ensures "SELECT " + "*" + " FROM " == "SELECT * FROM "
  {
  }

  /**
   * The statement of a chain of calls whose state selects `*`, given the
   * text that follows the table name.
   */
  lemma Statement(table: string, calls: seq<Call>, clauses: seq<Clause>, orderBy: string, limit: int, afterTable: string)
    requires Run(table, calls) == State(table, ["*"], clauses, limit, orderBy)
    requires AfterTable(clauses, orderBy, limit) == afterTable
    ensures Render(Run(table, calls)) == "SELECT * FROM " + table + afterTable
  {
    var tail := WhereSection(clauses) + OrderBySection(orderBy) + LimitSection(limit);
    RenderAroundTable(Run(table, calls), "*", tail);
    SelectStar();
  }

  /** With no ordering and no limit, only the WHERE section follows the table name. */
  lemma WhereOnly(clauses: seq<Clause>, where: string)
    requires WhereSection(clauses) == where
    ensures AfterTable(clauses, "", -1) == " " + where
  {
    assert OrderBySection("") + LimitSection(-1) == "";
    assert where + "" + "" == where;
  }

  lemma RunOne(table: string, a: Call)
    ensures Run(table, [a]) == Apply(Initial(table), a)
  {
    assert [a][..0] == [];
  }

  lemma RunTwo(table: string, a: Call, b: Call)
    ensures Run(table, [a, b]) == Apply(Apply(Initial(table), a), b)
  {
    assert [a, b][..1] == [a];
    RunOne(table, a);
  }

  lemma RunThree(table: string, a: Call, b: Call, c: Call)
    ensures Run(table, [a, b, c]) == Apply(Apply(Apply(Initial(table), a), b), c)
  {
    assert [a, b, c][..2] == [a, b];
    RunTwo(table, a, b);
  }

  /** The WHERE section of one clause. */
  lemma WhereOne(c: Clause)
    ensures WhereSection([c]) == "WHERE " + ClauseBody(c)
  {
    assert [c][1..] == [];
  }

  /** The WHERE section of two clauses: the second one carries its own junction. */
  lemma WhereTwo(c: Clause, d: Clause)
    ensures WhereSection([c, d]) == "WHERE " + ClauseBody(c) + Joint(d)
  {
    assert [c, d][1..] == [d];
    assert [d][1..] == [];
    assert Followers([d]) == Joint(d);
    ConcatAssoc("WHERE ", ClauseBody(c), Joint(d));
  }

  // Regrouping the text of a statement. String concatenation is associative,
  // but the solver needs each regrouping spelled out; these lemmas give it
  // the exact shapes the sections produce.

  lemma OneClauseChain(head: string, a: string, op: string, p: string)
    ensures head + (" " + ("WHERE " + (a + " " + op + " " + p)))
         == head + " WHERE " + a + " " + op + " " + p
  {
  }

  lemma OrChain(head: string, a: string, op: string, p: string, b: string, q: string)
    ensures head + (" " + ("WHERE " + (a + " " + op + " " + p) + (" " + "OR" + " " + (b + " " + "=" + " " + q))))
         == head + " WHERE " + a + " " + op + " " + p + " OR " + b + " = " + q
  {
  }

  lemma AndChain(head: string, a: string, p: string, b: string, op: string, q: string)
    ensures head + (" " + ("WHERE " + (a + " " + "=" + " " + p) + (" " + "AND" + " " + (b + " " + op + " " + q))))
         == head + " WHERE " + a + " = " + p + " AND " + b + " " + op + " " + q
  {
  }

  lemma RawOrChain(head: string, r1: string, r2: string)
    ensures head + (" " + ("WHERE " + r1 + (" " + "OR" + " " + r2)))
         == head + " WHERE " + r1 + " OR " + r2
  {
  }

  lemma LimitChain(head: string, digits: string)
    ensures head + (" " + ("" + "" + (" LIMIT " + digits + ";")))
         == head + "  LIMIT " + digits + ";"
  {
  }

  lemma OrderLimitChain(head: string, c: string, d: string, digits: string)
    ensures head + (" " + ("" + (" ORDER BY " + (c + " " + d)) + (" LIMIT " + digits + ";")))
         == head + "  ORDER BY " + c + " " + d + " LIMIT " + digits + ";"
  {
  }

  lemma SelectTwoChain(table: string, a: string, b: string)
    ensures "SELECT " + ("`" + a + "`" + ", " + ("`" + b + "`")) + " FROM " + table + (" " + "")
         == "SELECT `" + a + "`, `" + b + "` FROM " + table + " "
  {
  }

  /** A builder with no calls selects every column of its table. */
  lemma FreshBuilder(table: string)
    ensures Render(Run(table, [])) == "SELECT * FROM " + table + " "
  {
    RenderInitial(table);
  }

  lemma SelectTwoState(table: string, a: string, b: string)
    ensures Run(table, [Call.Select([a, b])]) == State(table, ["`" + a + "`", "`" + b + "`"], [], -1, "")
  {
    RunOne(table, Call.Select([a, b]));
    var r := BacktickedAll([a, b]);
    assert r == [Backticked(a), Backticked(b)];
  }

  /** `select([a, b])` backticks each name and joins them with `, `. */
  lemma SelectTwoColumns(table: string, a: string, b: string)
    ensures Render(Run(table, [Call.Select([a, b])])) == "SELECT `" + a + "`, `" + b + "` FROM " + table + " "
  {
    var s := Run(table, [Call.Select([a, b])]);
    var columns := "`" + a + "`" + ", " + ("`" + b + "`");
    SelectTwoState(table, a, b);
    assert s.columns[1..] == ["`" + b + "`"];
    assert Join(", ", s.columns) == columns;
    RenderAroundTable(s, columns, "");
    SelectTwoChain(table, a, b);
  }

  lemma WhereTwoArgumentsState(table: string, column: string, value: string, third: Option<string>)
    requires Absent(third)
    ensures Run(table, [Call.Where(column, value, third)])
         == State(table, ["*"], [Structured(column, "=", value, And)], -1, "")
  {
    RunOne(table, Call.Where(column, value, third));
  }

  lemma WhereTwoArgumentsText(table: string, column: string, value: string)
    ensures "SELECT * FROM " + table + AfterTable([Structured(column, "=", value, And)], "", -1)
         == "SELECT * FROM " + table + " WHERE " + column + " = " + ParseClauseValue(value)
  {
    var c := Structured(column, "=", value, And);
    WhereOne(c);
    WhereOnly([c], "WHERE " + ClauseBody(c));
    OneClauseChain("SELECT * FROM " + table, column, "=", ParseClauseValue(value));
  }

  /**
   * `where(column, value)` compares with `=`; the value is emitted through
   * the quoting rule (bare when numeric, in single quotes otherwise). An
   * empty third argument counts as absent and gives the same statement.
   */
  lemma WhereTwoArguments(table: string, column: string, value: string, third: Option<string>)
    requires Absent(third)
    ensures Render(Run(table, [Call.Where(column, value, third)]))
         == "SELECT * FROM " + table + " WHERE " + column + " = " + ParseClauseValue(value)
  {
    var clauses := [Structured(column, "=", value, And)];
    WhereTwoArgumentsState(table, column, value, third);
    Statement(table, [Call.Where(column, value, third)], clauses, "", -1, AfterTable(clauses, "", -1));
    WhereTwoArgumentsText(table, column, value);
  }

  /** Two sample values: `18` is numeric and emitted bare, `Bob` is not and is quoted. */
  lemma ExampleValues()
    ensures ParseClauseValue("18") == "18"
    ensures ParseClauseValue("Bob") == "'Bob'"
  {
    assert IsNumeric("18");
    assert !IsDigit('B');
    assert !IsNumeric("Bob");
  }

  lemma WhereThenOrWhereState(table: string, c1: string, op: string, v1: string, c2: string, v2: string)
    requires v1 != ""
    ensures Run(table, [Call.Where(c1, op, Some(v1)), Call.OrWhere(c2, v2, None)])
         == State(table, ["*"], [Structured(c1, op, v1, And), Structured(c2, "=", v2, Or)], -1, "")
  {
    RunTwo(table, Call.Where(c1, op, Some(v1)), Call.OrWhere(c2, v2, None));
  }

  lemma WhereThenOrWhereText(table: string, c1: string, op: string, v1: string, c2: string, v2: string)
    ensures "SELECT * FROM " + table + AfterTable([Structured(c1, op, v1, And), Structured(c2, "=", v2, Or)], "", -1)
         == "SELECT * FROM " + table + " WHERE " + c1 + " " + op + " " + ParseClauseValue(v1)
          + " OR " + c2 + " = " + ParseClauseValue(v2)
  {
    var c, d := Structured(c1, op, v1, And), Structured(c2, "=", v2, Or);
    WhereTwo(c, d);
    WhereOnly([c, d], "WHERE " + ClauseBody(c) + Joint(d));
    OrChain("SELECT * FROM " + table, c1, op, ParseClauseValue(v1), c2, ParseClauseValue(v2));
  }

  /**
   * `where(c1, op, v1).orWhere(c2, v2)`: the two-argument `orWhere` joins
   * with OR, as in `where("age", ">", "18").orWhere("name", "Bob")`.
   */
  lemma WhereThenOrWhere(table: string, c1: string, op: string, v1: string, c2: string, v2: string)
    requires v1 != ""
    ensures Render(Run(table, [Call.Where(c1, op, Some(v1)), Call.OrWhere(c2, v2, None)]))
         == "SELECT * FROM " + table + " WHERE " + c1 + " " + op + " " + ParseClauseValue(v1)
          + " OR " + c2 + " = " + ParseClauseValue(v2)
  {
    var clauses := [Structured(c1, op, v1, And), Structured(c2, "=", v2, Or)];
    WhereThenOrWhereState(table, c1, op, v1, c2, v2);
    Statement(table, [Call.Where(c1, op, Some(v1)), Call.OrWhere(c2, v2, None)],
      clauses, "", -1, AfterTable(clauses, "", -1));
    WhereThenOrWhereText(table, c1, op, v1, c2, v2);
  }

  lemma ThreeArgumentOrWhereState(table: string, c1: string, v1: string, c2: string, op: string, v2: string)
    requires v2 != ""
    ensures Run(table, [Call.Where(c1, v1, None), Call.OrWhere(c2, op, Some(v2))])
         == State(table, ["*"], [Structured(c1, "=", v1, And), Structured(c2, op, v2, And)], -1, "")
  {
    RunTwo(table, Call.Where(c1, v1, None), Call.OrWhere(c2, op, Some(v2)));
  }

  lemma ThreeArgumentOrWhereText(table: string, c1: string, v1: string, c2: string, op: string, v2: string)
    ensures "SELECT * FROM " + table + AfterTable([Structured(c1, "=", v1, And), Structured(c2, op, v2, And)], "", -1)
         == "SELECT * FROM " + table + " WHERE " + c1 + " = " + ParseClauseValue(v1)
          + " AND " + c2 + " " + op + " " + ParseClauseValue(v2)
  {
    var c, d := Structured(c1, "=", v1, And), Structured(c2, op, v2, And);
    WhereTwo(c, d);
    WhereOnly([c, d], "WHERE " + ClauseBody(c) + Joint(d));
    AndChain("SELECT * FROM " + table, c1, ParseClauseValue(v1), c2, op, ParseClauseValue(v2));
  }

  /**
   * `where(c1, v1).orWhere(c2, op, v2)`: the three-argument `orWhere`
   * joins with AND, not OR.
   */
  lemma ThreeArgumentOrWhere(table: string, c1: string, v1: string, c2: string, op: string, v2: string)
    requires v2 != ""
    ensures Render(Run(table, [Call.Where(c1, v1, None), Call.OrWhere(c2, op, Some(v2))]))
         == "SELECT * FROM " + table + " WHERE " + c1 + " = " + ParseClauseValue(v1)
          + " AND " + c2 + " " + op + " " + ParseClauseValue(v2)
  {
    var clauses := [Structured(c1, "=", v1, And), Structured(c2, op, v2, And)];
    ThreeArgumentOrWhereState(table, c1, v1, c2, op, v2);
    Statement(table, [Call.Where(c1, v1, None), Call.OrWhere(c2, op, Some(v2))],
      clauses, "", -1, AfterTable(clauses, "", -1));
    ThreeArgumentOrWhereText(table, c1, v1, c2, op, v2);
  }

  lemma RawThenOrRawState(table: string, r1: string, r2: string)
    ensures Run(table, [Call.WhereRaw(r1), Call.OrWhereRaw(r2)])
         == State(table, ["*"], [Raw(r1, And), Raw(r2, Or)], -1, "")
  {
    RunTwo(table, Call.WhereRaw(r1), Call.OrWhereRaw(r2));
  }

  lemma RawThenOrRawText(table: string, r1: string, r2: string)
    ensures "SELECT * FROM " + table + AfterTable([Raw(r1, And), Raw(r2, Or)], "", -1)
         == "SELECT * FROM " + table + " WHERE " + r1 + " OR " + r2
  {
    var c, d := Raw(r1, And), Raw(r2, Or);
    WhereTwo(c, d);
    WhereOnly([c, d], "WHERE " + ClauseBody(c) + Joint(d));
    RawOrChain("SELECT * FROM " + table, r1, r2);
  }

  /** `whereRaw(r1).orWhereRaw(r2)`: fragments verbatim, joined by their own junction. */
  lemma RawThenOrRaw(table: string, r1: string, r2: string)
    ensures Render(Run(table, [Call.WhereRaw(r1), Call.OrWhereRaw(r2)]))
         == "SELECT * FROM " + table + " WHERE " + r1 + " OR " + r2
  {
    var clauses := [Raw(r1, And), Raw(r2, Or)];
    RawThenOrRawState(table, r1, r2);
    Statement(table, [Call.WhereRaw(r1), Call.OrWhereRaw(r2)], clauses, "", -1, AfterTable(clauses, "", -1));
    RawThenOrRawText(table, r1, r2);
  }

  /**
   * `limit(n)` with `n >= 0`: the LIMIT text, with the only `;`, is the
   * final suffix; its digits read back as `n`.
   */
  lemma LimitOnly(table: string, n: int)
    requires n >= 0
    ensures Render(Run(table, [Call.Limit(n)])) == "SELECT * FROM " + table + "  LIMIT " + IntToString(n) + ";"
    ensures DigitsValue(IntToString(n)) == n
  {
    RunOne(table, Call.Limit(n));
    Statement(table, [Call.Limit(n)], [], "", n, AfterTable([], "", n));
    LimitChain("SELECT * FROM " + table, IntToString(n));
  }

  /** `limit(n)` with `n < 0` renders like no limit: no LIMIT text and no `;`. */
  lemma NegativeLimit(table: string, n: int)
    requires n < 0
    ensures Render(Run(table, [Call.Limit(n)])) == "SELECT * FROM " + table + " "
  {
    RunOne(table, Call.Limit(n));
    assert AfterTable([], "", n) == " ";
    Statement(table, [Call.Limit(n)], [], "", n, " ");
  }

  lemma OrderThenLimitState(table: string, c1: string, d1: string, n: int, c2: string, d2: string)
    ensures Run(table, [Call.OrderBy(c1, d1), Call.Limit(n), Call.OrderBy(c2, d2)])
         == State(table, ["*"], [], n, c2 + " " + d2)
  {
    RunThree(table, Call.OrderBy(c1, d1), Call.Limit(n), Call.OrderBy(c2, d2));
  }

  /**
   * `orderBy(c1, d1).limit(n).orderBy(c2, d2)`: the later ordering
   * overwrites the earlier one, and ORDER BY comes before LIMIT.
   */
  lemma OrderByThenLimit(table: string, c1: string, d1: string, n: int, c2: string, d2: string)
    requires n >= 0
    ensures Render(Run(table, [Call.OrderBy(c1, d1), Call.Limit(n), Call.OrderBy(c2, d2)]))
         == "SELECT * FROM " + table + "  ORDER BY " + c2 + " " + d2 + " LIMIT " + IntToString(n) + ";"
  {
    OrderThenLimitState(table, c1, d1, n, c2, d2);
    assert |c2 + " " + d2| > 0;
    Statement(table, [Call.OrderBy(c1, d1), Call.Limit(n), Call.OrderBy(c2, d2)],
      [], c2 + " " + d2, n, AfterTable([], c2 + " " + d2, n));
    OrderLimitChain("SELECT * FROM " + table, c2, d2, IntToString(n));
  }
}
