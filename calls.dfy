/**
 * The builder's public mutators as values, and the state a sequence of
 * calls leaves behind. Lemmas here say what a chain of calls does to each
 * part of the state, independently of the order the calls fold in.
 */
module Calls {
  import opened Wrappers
  import opened Text
  import opened Sql

  /** One call of a mutator on the builder, with its arguments. */
  datatype Call =
    | Where(column: string, valueOrOperator: string, value: Option<string>)
    | OrWhere(column: string, valueOrOperator: string, value: Option<string>)
    | WhereRaw(rawSql: string)
    | OrWhereRaw(rawSql: string)
    | Select(names: seq<string>)
    | Limit(amount: int)
    | OrderBy(orderColumn: string, direction: string)

  /**
   * The optional third argument counts as absent when it is missing and also
   * when it is the empty string (a loose comparison with null).
   */
  predicate Absent(value: Option<string>)
  {
    value.None? || value.value == ""
  }

  /** Does this call add a where-clause? */
  predicate AddsClause(c: Call)
  {
    c.Where? || c.OrWhere? || c.WhereRaw? || c.OrWhereRaw?
  }

  /**
   * The clause a where-kind call stores. With two arguments the operator is
   * `=` and the second argument is the value. Only the two-argument
   * `orWhere` and `orWhereRaw` store OR; the three-argument `orWhere` stores
   * the default AND.
   */
  function ClauseOf(c: Call): (cl: Clause)
    requires AddsClause(c)
    ensures cl.delimiter == Or <==> c.OrWhereRaw? || (c.OrWhere? && Absent(c.value))
    ensures cl.Raw? <==> c.WhereRaw? || c.OrWhereRaw?
    ensures cl.Structured? ==> cl.column == c.column
    ensures cl.Raw? ==> cl.rawSql == c.rawSql
    ensures cl.Structured? && Absent(c.value) ==> cl.operator == "=" && cl.value == c.valueOrOperator
    ensures cl.Structured? && !Absent(c.value) ==> cl.operator == c.valueOrOperator && cl.value == c.value.value
  {
    match c
    case Where(column, valueOrOperator, value) =>
      if Absent(value) then Structured(column, "=", valueOrOperator, And)
      else Structured(column, valueOrOperator, value.value, And)
    case OrWhere(column, valueOrOperator, value) =>
      if Absent(value) then Structured(column, "=", valueOrOperator, Or)
      else Structured(column, valueOrOperator, value.value, And)
    case WhereRaw(rawSql) => Raw(rawSql, And)
    case OrWhereRaw(rawSql) => Raw(rawSql, Or)
  }

  /** The effect of one call on the state. */
  function Apply(s: State, c: Call): State
  {
    match c
    case Where(_, _, _) => s.(clauses := s.clauses + [ClauseOf(c)])
    case OrWhere(_, _, _) => s.(clauses := s.clauses + [ClauseOf(c)])
    case WhereRaw(_) => s.(clauses := s.clauses + [ClauseOf(c)])
    case OrWhereRaw(_) => s.(clauses := s.clauses + [ClauseOf(c)])
    case Select(names) => s.(columns := BacktickedAll(names))
    case Limit(amount) => s.(limit := amount)
    case OrderBy(column, direction) => s.(orderBy := column + " " + direction)
  }

  /** The state after constructing a builder on `table` and making `calls` in order. */
  function Run(table: string, calls: seq<Call>): State
  {
    if calls == [] then Initial(table)
    else Apply(Run(table, calls[..|calls| - 1]), calls[|calls| - 1])
  }

  /** The clauses the where-kind calls among `calls` store, in call order. */
  function ClausesOf(calls: seq<Call>): seq<Clause>
  {
    if calls == [] then []
    else (if AddsClause(calls[0]) then [ClauseOf(calls[0])] else []) + ClausesOf(calls[1..])
  }

  /** The amount of the last `limit` call, or -1 when there is none. */
  function LastLimit(calls: seq<Call>): int
  {
    if calls == [] then -1
    else if calls[0].Limit? && forall j :: 1 <= j < |calls| ==> !calls[j].Limit? then calls[0].amount
    else LastLimit(calls[1..])
  }

  lemma {:induction false} ClausesOfAppend(calls: seq<Call>, c: Call)
    ensures ClausesOf(calls + [c]) == ClausesOf(calls) + (if AddsClause(c) then [ClauseOf(c)] else [])
  {
    var tail := if AddsClause(c) then [ClauseOf(c)] else [];
    if calls == [] {
      assert calls + [c] == [c];
      assert ClausesOf([c]) == tail + ClausesOf([]);
    } else {
      var head := if AddsClause(calls[0]) then [ClauseOf(calls[0])] else [];
      assert (calls + [c])[0] == calls[0];
      assert (calls + [c])[1..] == calls[1..] + [c];
      assert ClausesOf(calls + [c]) == head + ClausesOf(calls[1..] + [c]);
      ClausesOfAppend(calls[1..], c);
      assert ClausesOf(calls) == head + ClausesOf(calls[1..]);
    }
  }

  /**
   * Where-clauses are only ever appended: after any chain of calls, the
   * clause list is exactly the clauses of the where-kind calls, in the order
   * they were made.
   */
  lemma {:induction false} RunClauses(table: string, calls: seq<Call>)
    ensures Run(table, calls).clauses == ClausesOf(calls)
  {
    if calls != [] {
      var init, last := calls[..|calls| - 1], calls[|calls| - 1];
      RunClauses(table, init);
      assert calls == init + [last];
      ClausesOfAppend(init, last);
    }
  }

  /** Later calls never remove or reorder the clauses earlier calls stored. */
  lemma {:induction false} RunClausesGrow(table: string, calls: seq<Call>, more: seq<Call>)
    ensures Run(table, calls).clauses <= Run(table, calls + more).clauses
  {
    if more == [] {
      assert calls + more == calls;
    } else {
      var init := more[..|more| - 1];
      RunClausesGrow(table, calls, init);
      var all := calls + more;
      assert all[..|all| - 1] == calls + init;
      var before := Run(table, calls + init);
      assert Run(table, all) == Apply(before, all[|all| - 1]);
      assert before.clauses <= Run(table, all).clauses;
    }
  }

  /** The table name never changes after construction. */
  lemma {:induction false} RunTable(table: string, calls: seq<Call>)
    ensures Run(table, calls).table == table
  {
    if calls != [] {
      RunTable(table, calls[..|calls| - 1]);
    }
  }

  lemma {:induction false} LastLimitAppend(calls: seq<Call>, c: Call)
    ensures LastLimit(calls + [c]) == if c.Limit? then c.amount else LastLimit(calls)
  {
    var all := calls + [c];
    if calls == [] {
      assert all == [c];
    } else {
      assert all[1..] == calls[1..] + [c];
      LastLimitAppend(calls[1..], c);
      if c.Limit? {
        assert all[|all| - 1].Limit?;
      } else if calls[0].Limit? && forall j :: 1 <= j < |calls| ==> !calls[j].Limit? {
        assert forall j :: 1 <= j < |all| ==> !all[j].Limit?;
      } else if calls[0].Limit? {
        var j :| 1 <= j < |calls| && calls[j].Limit?;
        assert all[j].Limit?;
      }
    }
  }

  /** Each `limit` call overwrites the last: the limit is the last amount given, -1 if none. */
  lemma {:induction false} RunLimit(table: string, calls: seq<Call>)
    ensures Run(table, calls).limit == LastLimit(calls)
  {
    if calls != [] {
      var init, last := calls[..|calls| - 1], calls[|calls| - 1];
      RunLimit(table, init);
      assert calls == init + [last];
      LastLimitAppend(init, last);
    }
  }

  /**
   * The stored ordering is empty exactly when no `orderBy` call was made, and
   * otherwise is the column and direction of the last such call.
   */
  lemma {:induction false} RunOrderBy(table: string, calls: seq<Call>)
    ensures Run(table, calls).orderBy == "" <==> forall j :: 0 <= j < |calls| ==> !calls[j].OrderBy?
    ensures forall j :: (0 <= j < |calls| && calls[j].OrderBy?
                          && (forall k :: j < k < |calls| ==> !calls[k].OrderBy?))
                         ==> Run(table, calls).orderBy == calls[j].orderColumn + " " + calls[j].direction
  {
    if calls != [] {
      var init, last := calls[..|calls| - 1], calls[|calls| - 1];
      RunOrderBy(table, init);
      assert forall j :: 0 <= j < |init| ==> init[j] == calls[j];
      if last.OrderBy? {
        assert |last.orderColumn + " " + last.direction| > 0;
      }
    }
  }

  /**
   * `select` replaces the column list wholesale: it is the backticked names of
   * the last `select` call, or `*` when there was none.
   */
  lemma {:induction false} RunColumns(table: string, calls: seq<Call>)
    ensures (forall j :: 0 <= j < |calls| ==> !calls[j].Select?) ==> Run(table, calls).columns == ["*"]
    ensures forall j :: (0 <= j < |calls| && calls[j].Select?
                          && (forall k :: j < k < |calls| ==> !calls[k].Select?))
                         ==> Run(table, calls).columns == BacktickedAll(calls[j].names)
  {
    if calls != [] {
      var init, last := calls[..|calls| - 1], calls[|calls| - 1];
      RunColumns(table, init);
      assert forall j :: 0 <= j < |init| ==> init[j] == calls[j];
      assert calls == init + [last];
      if last.Select? {
        assert Run(table, calls).columns == BacktickedAll(last.names);
      } else {
        assert Run(table, calls).columns == Run(table, init).columns;
      }
    }
  }

  /** A builder on which nothing was called renders `SELECT * FROM <table> `. */
  lemma RenderNoCalls(table: string)
    ensures Render(Run(table, [])) == "SELECT * FROM " + table + " "
  {
    RenderInitial(table);
  }

  /**
   * After any chain that includes an `orderBy(c, d)` call and no later one,
   * the statement contains ` ORDER BY c d`.
   */
  lemma RunRendersLastOrderBy(table: string, calls: seq<Call>, j: nat)
    requires j < |calls| && calls[j].OrderBy?
    requires forall k :: j < k < |calls| ==> !calls[k].OrderBy?
    ensures IsInfix(" ORDER BY " + calls[j].orderColumn + " " + calls[j].direction, Render(Run(table, calls)))
  {
    var s := Run(table, calls);
    RunOrderBy(table, calls);
    assert " ORDER BY " + calls[j].orderColumn + " " + calls[j].direction == " ORDER BY " + s.orderBy;
    RenderWithOrderBy(s);
  }
}
