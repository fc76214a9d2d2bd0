/**
 * The builder object: its fields are updated in place by the mutators, and
 * `ToSql` reads them, step by step, into the statement `Render` specifies.
 */
module Builder {
  import opened Wrappers
  import opened Text
  import opened Sql
  import opened Calls

  class QueryBuilder {
    const tableName: string
    var whereClauses: seq<Clause>
    var selectColumns: seq<string>
    var maxResults: int
    /** Empty while no ordering has been set. */
    var orderBy: string

    /** The builder's fields as one value. */
    function Snapshot(): State
      reads this
    {
      State(tableName, selectColumns, whereClauses, maxResults, orderBy)
    }

    constructor (tableName: string)
      ensures this.tableName == tableName && selectColumns == ["*"]
      ensures whereClauses == [] && maxResults == -1 && orderBy == ""
      ensures Snapshot() == Run(tableName, [])
    {
      this.tableName := tableName;
      whereClauses := [];
      selectColumns := ["*"];
      maxResults := -1;
      orderBy := "";
    }

    /**
     * `where(column, value)` compares with `=`; `where(column, operator, value)`
     * uses the given operator. Either way the clause joins with AND.
     */
    method Where(column: string, valueOrOperator: string, value: Option<string>)
      modifies this
      ensures Absent(value) ==>
        whereClauses == old(whereClauses) + [Structured(column, "=", valueOrOperator, And)]
      ensures !Absent(value) ==>
        whereClauses == old(whereClauses) + [Structured(column, valueOrOperator, value.value, And)]
      ensures selectColumns == old(selectColumns) && maxResults == old(maxResults) && orderBy == old(orderBy)
      ensures Snapshot() == Apply(old(Snapshot()), Call.Where(column, valueOrOperator, value))
    {
      if Absent(value) {
        AppendWhere(column, "=", valueOrOperator, And);
      } else {
        AppendWhere(column, valueOrOperator, value.value, And);
      }
    }

    /** Pushes one structured clause onto the end of the clause list. */
    method AppendWhere(column: string, operator: string, value: string, delimiter: Junction)
      modifies this
      ensures whereClauses == old(whereClauses) + [Structured(column, operator, value, delimiter)]
      ensures selectColumns == old(selectColumns) && maxResults == old(maxResults) && orderBy == old(orderBy)
    {
      whereClauses := whereClauses + [Structured(column, operator, value, delimiter)];
    }

    /** Pushes a verbatim fragment joined with AND. */
    method WhereRaw(rawSql: string)
      modifies this
      ensures whereClauses == old(whereClauses) + [Raw(rawSql, And)]
      ensures selectColumns == old(selectColumns) && maxResults == old(maxResults) && orderBy == old(orderBy)
      ensures Snapshot() == Apply(old(Snapshot()), Call.WhereRaw(rawSql))
    {
      whereClauses := whereClauses + [Raw(rawSql, And)];
    }

    /**
     * `orWhere(column, value)` joins with OR; the three-argument form
     * `orWhere(column, operator, value)` joins with the default AND.
     */
    method OrWhere(column: string, valueOrOperator: string, value: Option<string>)
      modifies this
      ensures Absent(value) ==>
        whereClauses == old(whereClauses) + [Structured(column, "=", valueOrOperator, Or)]
      ensures !Absent(value) ==>
        whereClauses == old(whereClauses) + [Structured(column, valueOrOperator, value.value, And)]
      ensures selectColumns == old(selectColumns) && maxResults == old(maxResults) && orderBy == old(orderBy)
      ensures Snapshot() == Apply(old(Snapshot()), Call.OrWhere(column, valueOrOperator, value))
    {
      if Absent(value) {
        AppendWhere(column, "=", valueOrOperator, Or);
      } else {
        AppendWhere(column, valueOrOperator, value.value, And);
      }
    }

    /** Pushes a verbatim fragment joined with OR. */
    method OrWhereRaw(rawSql: string)
      modifies this
      ensures whereClauses == old(whereClauses) + [Raw(rawSql, Or)]
      ensures selectColumns == old(selectColumns) && maxResults == old(maxResults) && orderBy == old(orderBy)
      ensures Snapshot() == Apply(old(Snapshot()), Call.OrWhereRaw(rawSql))
    {
      whereClauses := whereClauses + [Raw(rawSql, Or)];
    }

    /** Replaces the select list with the given names, each wrapped in backticks. */
    method Select(columns: seq<string>)
      modifies this
      ensures |selectColumns| == |columns|
      ensures forall i :: 0 <= i < |columns| ==> selectColumns[i] == "`" + columns[i] + "`"
      ensures whereClauses == old(whereClauses) && maxResults == old(maxResults) && orderBy == old(orderBy)
      ensures Snapshot() == Apply(old(Snapshot()), Call.Select(columns))
    {
      selectColumns := [];
      for i := 0 to |columns|
        invariant |selectColumns| == i
        invariant forall k :: 0 <= k < i ==> selectColumns[k] == "`" + columns[k] + "`"
        invariant whereClauses == old(whereClauses) && maxResults == old(maxResults) && orderBy == old(orderBy)
      {
        selectColumns := selectColumns + ["`" + columns[i] + "`"];
      }
    }

    /** Overwrites the limit; a negative amount means no limit. */
    method Limit(amount: int)
      modifies this
      ensures maxResults == amount
      ensures whereClauses == old(whereClauses) && selectColumns == old(selectColumns) && orderBy == old(orderBy)
      ensures Snapshot() == Apply(old(Snapshot()), Call.Limit(amount))
    {
      maxResults := amount;
    }

    /** Overwrites the ordering with `column direction`, never empty afterwards. */
    method OrderBy(column: string, direction: string)
      modifies this
      ensures orderBy == column + " " + direction && |orderBy| > 0
      ensures whereClauses == old(whereClauses) && selectColumns == old(selectColumns) && maxResults == old(maxResults)
      ensures Snapshot() == Apply(old(Snapshot()), Call.OrderBy(column, direction))
    {
      orderBy := column + " " + direction;
    }

    /**
     * `SELECT <columns joined by ", "> FROM <table> `: the text every
     * statement of this builder starts with.
     */
    function BuildDefaultQuery(): (r: string)
      reads this
      ensures r <= Render(Snapshot())
    {
      DefaultQuery(selectColumns, tableName)
    }

    /**
     * Appends `WHERE ` and then every clause in order: the first one bare,
     * each later one after its own junction.
     */
    method AppendWhereClausesToQuery(query: string) returns (r: string)
      ensures r == query + "WHERE " + Conditions(whereClauses)
      ensures whereClauses != [] ==> r == query + WhereSection(whereClauses)
    {
      r := query + "WHERE ";
      for key := 0 to |whereClauses|
        invariant r == query + "WHERE " + Conditions(whereClauses[..key])
      {
        var clause := whereClauses[key];
        ghost var before := r;
        var separator := "";
        if key >= 1 {
          separator := " " + clause.delimiter.Keyword() + " ";
          r := r + separator;
        }
        assert r == before + separator;
        match clause {
          case Raw(rawSql, _) =>
            r := r + rawSql;
          case Structured(column, operator, value, _) =>
            var parsedValue := ParseClauseValue(value);
            r := r + (column + " " + operator + " " + parsedValue);
        }
        ConditionsStep(query + "WHERE ", whereClauses, key, before, separator, r);
      }
      assert whereClauses[..|whereClauses|] == whereClauses;
    }

    /** With an ordering set, appends exactly the ORDER BY section. */
    function AppendOrderByToQuery(query: string): (r: string)
      reads this
      ensures |orderBy| > 0 ==> r == query + OrderBySection(orderBy)
    {
      query + (" ORDER BY " + orderBy)
    }

    /**
     * With a limit set, appends exactly the LIMIT section; the statement
     * then ends with `;`.
     */
    function AppendLimitSqlToQuery(query: string): (r: string)
      reads this
      ensures maxResults >= 0 ==> r == query + LimitSection(maxResults)
      ensures query < r && r[|r| - 1] == ';'
    {
      query + (" LIMIT " + IntToString(maxResults) + ";")
    }

    /**
     * The statement for the current state. Reads the fields and changes
     * none of them, so calling it again gives the same string.
     */
    method ToSql() returns (sql: string)
      ensures sql == Render(Snapshot())
      ensures BuildDefaultQuery() <= sql
    {
      var query := BuildDefaultQuery();
      ghost var front := query;
      if |whereClauses| > 0 {
        query := AppendWhereClausesToQuery(query);
      } else {
        assert query == front + WhereSection(whereClauses);
      }
      ghost var upToWhere := query;
      if |orderBy| > 0 {
        query := AppendOrderByToQuery(query);
      } else {
        assert query == upToWhere + OrderBySection(orderBy);
      }
      ghost var upToOrder := query;
      if maxResults >= 0 {
        query := AppendLimitSqlToQuery(query);
      } else {
        assert query == upToOrder + LimitSection(maxResults);
      }
      sql := query;
    }
  }

  /**
   * Replays a chain of calls on a new builder and renders it: the object
   * ends in exactly the state the calls specify, so `ToSql` returns that
   * state's rendering.
   */
  method BuildAndRender(table: string, calls: seq<Call>) returns (sql: string)
    ensures sql == Render(Run(table, calls))
  {
    var b := new QueryBuilder(table);
    for i := 0 to |calls|
      invariant b.Snapshot() == Run(table, calls[..i])
    {
      assert calls[..i + 1][..i] == calls[..i];
      match calls[i] {
        case Where(column, valueOrOperator, value) => b.Where(column, valueOrOperator, value);
        case OrWhere(column, valueOrOperator, value) => b.OrWhere(column, valueOrOperator, value);
        case WhereRaw(rawSql) => b.WhereRaw(rawSql);
        case OrWhereRaw(rawSql) => b.OrWhereRaw(rawSql);
        case Select(names) => b.Select(names);
        case Limit(amount) => b.Limit(amount);
        case OrderBy(column, direction) => b.OrderBy(column, direction);
      }
    }
    assert calls[..|calls|] == calls;
    sql := b.ToSql();
  }

  /** `ToSql` changes nothing, so a second call returns the same statement. */
  method ToSqlTwice(b: QueryBuilder) returns (first: string, second: string)
    ensures first == second
  {
    first := b.ToSql();
    second := b.ToSql();
  }
}
