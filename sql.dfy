/**
 * The builder's state as a value, and the deterministic rendering of that
 * state into one SELECT statement: select list and table, then the WHERE
 * section, then ORDER BY, then LIMIT.
 */
module Sql {
  import opened Text

  /** The word that joins a where-clause to the clause before it. */
  datatype Junction = And | Or {
    function Keyword(): string
    {
      match this
      case And => "AND"
      case Or => "OR"
    }
  }

  /**
   * One where-clause: a structured comparison `column operator value`, or a
   * raw SQL fragment kept verbatim. Both carry the junction used when the
   * clause follows another one.
   */
  datatype Clause =
    | Structured(column: string, operator: string, value: string, delimiter: Junction)
    | Raw(rawSql: string, delimiter: Junction)

  /**
   * Everything the builder holds. `limit < 0` means no limit; an empty
   * `orderBy` means no ordering.
   */
  datatype State = State(
    table: string,
    columns: seq<string>,
    clauses: seq<Clause>,
    limit: int,
    orderBy: string)

  /** The state of a freshly constructed builder on table `table`. */
  function Initial(table: string): (s: State)
    ensures s.table == table && s.columns == ["*"] && s.clauses == []
    ensures s.limit < 0 && s.orderBy == ""
  {
    State(table, ["*"], [], -1, "")
  }

  /** `select` wraps every column name in backticks, without escaping. */
  function Backticked(column: string): string
  {
    "`" + column + "`"
  }

  /**
   * The stored select list for `select(columns)`: one item per column, in
   * order; stripping the backtick at each end of an item gives its column back.
   */
  function BacktickedAll(columns: seq<string>): (r: seq<string>)
    ensures |r| == |columns|
    ensures forall i :: 0 <= i < |r| ==> r[i] == Backticked(columns[i])
    ensures forall i :: 0 <= i < |r| ==>
      (|r[i]| == |columns[i]| + 2 && r[i][0] == '`' && r[i][|r[i]| - 1] == '`' && r[i][1..|r[i]| - 1] == columns[i])
  {
    seq(|columns|, i requires 0 <= i < |columns| => Backticked(columns[i]))
  }

  /** Strips one pair of surrounding single quotes, if there is one. */
  function Unquote(literal: string): string
  {
    if |literal| >= 2 && literal[0] == '\'' && literal[|literal| - 1] == '\''
    then literal[1..|literal| - 1]
    else literal
  }

  /**
   * A numeric value is emitted bare; anything else in single quotes,
   * unescaped. Quoting loses nothing: the value can be read back from the
   * emitted literal, and the literal is bare exactly when the value is
   * numeric.
   */
  function ParseClauseValue(value: string): (r: string)
    ensures Unquote(r) == value
    ensures IsNumeric(value) <==> r == value
    ensures !IsNumeric(value) ==> r[0] == '\''
  {
    if IsNumeric(value) then value
    else
      var r := "'" + value + "'";
      assert |r| == |value| + 2;
      r
  }

  /** The text a single clause contributes, without any junction. */
  function ClauseBody(c: Clause): string
  {
    match c
    case Raw(rawSql, _) => rawSql
    case Structured(column, operator, value, _) =>
      column + " " + operator + " " + ParseClauseValue(value)
  }

  /** ` <junction> `: what joins a clause to the one before it. */
  function Separator(c: Clause): string
  {
    " " + c.delimiter.Keyword() + " "
  }

  /** The text of a clause that follows another: ` <junction> <body>`. */
  function Joint(c: Clause): string
  {
    Separator(c) + ClauseBody(c)
  }

  /** The clauses after the first, each preceded by its own junction. */
  function Followers(cs: seq<Clause>): string
  {
    if cs == [] then "" else Joint(cs[0]) + Followers(cs[1..])
  }

  /** All clauses: the first one bare, the others joined by their own junction. */
  function Conditions(cs: seq<Clause>): string
  {
    if cs == [] then "" else ClauseBody(cs[0]) + Followers(cs[1..])
  }

  /** Rendering followers distributes over concatenation of clause lists. */
  lemma {:induction false} FollowersAppend(cs: seq<Clause>, ds: seq<Clause>)
    ensures Followers(cs + ds) == Followers(cs) + Followers(ds)
  {
    if cs == [] {
      assert cs + ds == ds;
    } else {
      assert (cs + ds)[1..] == cs[1..] + ds;
      FollowersAppend(cs[1..], ds);
    }
  }

  /**
   * Appending a clause appends text only: the conditions of the longer list
   * are those of the shorter one followed by the new clause's text, which is
   * its body alone when it is the first clause.
   */
  lemma ConditionsSnoc(cs: seq<Clause>, c: Clause)
    ensures Conditions(cs + [c]) ==
      Conditions(cs) + (if cs == [] then ClauseBody(c) else Joint(c))
  {
    if cs == [] {
      assert cs + [c] == [c];
    } else {
      assert (cs + [c])[1..] == cs[1..] + [c];
      FollowersAppend(cs[1..], [c]);
      assert [c][1..] == [];
      assert Followers([c]) == Joint(c);
      assert Conditions(cs + [c]) == ClauseBody(cs[0]) + (Followers(cs[1..]) + Joint(c));
      ConcatAssoc(ClauseBody(cs[0]), Followers(cs[1..]), Joint(c));
    }
  }

  /** The first clause's junction is stored but never rendered. */
  lemma FirstJunctionIgnored(cs: seq<Clause>, d: Junction)
    requires cs != []
    ensures Conditions(cs[0 := cs[0].(delimiter := d)]) == Conditions(cs)
  {
    var cs' := cs[0 := cs[0].(delimiter := d)];
    assert cs'[1..] == cs[1..];
  }

  /**
   * Clause i (i >= 1) is rendered right after the text of clauses 0..i-1,
   * joined by its OWN junction, not by the previous clause's.
   */
  lemma {:induction false} ConditionsAt(cs: seq<Clause>, i: nat)
    requires 1 <= i < |cs|
    ensures Conditions(cs[..i + 1]) == Conditions(cs[..i]) + " " + cs[i].delimiter.Keyword() + " " + ClauseBody(cs[i])
  {
    var before, kw, body := Conditions(cs[..i]), cs[i].delimiter.Keyword(), ClauseBody(cs[i]);
    assert cs[..i + 1] == cs[..i] + [cs[i]];
    ConditionsSnoc(cs[..i], cs[i]);
    ConcatAssoc(before, " " + kw + " ", body);
    ConcatAssoc(before, " " + kw, " ");
    ConcatAssoc(before, " ", kw);
  }

  /**
   * One step of rendering the clauses left to right: the text so far,
   * then the separator (none for clause 0), then the clause body.
   */
  lemma ConditionsStep(query: string, cs: seq<Clause>, key: nat, before: string, separator: string, r: string)
    requires key < |cs|
    requires before == query + Conditions(cs[..key])
    requires separator == if key == 0 then "" else Separator(cs[key])
    requires r == before + separator + ClauseBody(cs[key])
    ensures r == query + Conditions(cs[..key + 1])
  {
    var c := cs[key];
    assert cs[..key + 1] == cs[..key] + [c];
    ConditionsSnoc(cs[..key], c);
    assert key == 0 <==> cs[..key] == [];
    assert separator + ClauseBody(c) == if key == 0 then ClauseBody(c) else Joint(c);
    ConcatAssoc(before, separator, ClauseBody(c));
    ConcatAssoc(query, Conditions(cs[..key]), separator + ClauseBody(c));
  }

  /** The WHERE section: absent without clauses. */
  function WhereSection(cs: seq<Clause>): string
  {
    if cs == [] then "" else "WHERE " + Conditions(cs)
  }

  /** ` ORDER BY <value>` when an ordering is set. */
  function OrderBySection(orderBy: string): string
  {
    if |orderBy| > 0 then " ORDER BY " + orderBy else ""
  }

  /** ` LIMIT <n>;` when the limit is non-negative; the only place a `;` is added. */
  function LimitSection(limit: int): string
  {
    if limit >= 0 then " LIMIT " + IntToString(limit) + ";" else ""
  }

  /** `SELECT <columns> FROM <table> `, with its trailing space. */
  function DefaultQuery(columns: seq<string>, table: string): (r: string)
    ensures "SELECT " <= r
    ensures |r| >= |table| + 7 && r[|r| - |table| - 7..] == " FROM " + table + " "
  {
    var r := "SELECT " + Join(", ", columns) + " FROM " + table + " ";
    assert r == "SELECT " + (Join(", ", columns) + (" FROM " + table + " "));
    r
  }

  /** The first of four concatenated parts is a prefix of the whole. */
  lemma PrefixOfFour(a: string, b: string, c: string, d: string)
    ensures a <= a + b + c + d
  {
    assert a + b + c + d == a + (b + c + d);
  }

  /**
   * The statement `toSql` returns for state `s`. It starts with the default
   * query and, when a limit is set, ends with `;`.
   */
  function Render(s: State): (r: string)
    ensures DefaultQuery(s.columns, s.table) <= r
    ensures s.limit >= 0 ==> |r| > 0 && r[|r| - 1] == ';'
  {
    PrefixOfFour(DefaultQuery(s.columns, s.table), WhereSection(s.clauses), OrderBySection(s.orderBy), LimitSection(s.limit));
    DefaultQuery(s.columns, s.table) + WhereSection(s.clauses)
      + OrderBySection(s.orderBy) + LimitSection(s.limit)
  }

  /** A fresh builder renders just the default select over its table. */
  lemma RenderInitial(table: string)
    ensures Render(Initial(table)) == "SELECT * FROM " + table + " "
  {
  }

  /**
   * A non-negative limit appends ` LIMIT n;` as the very last text, to what
   * the same state renders without a limit; the digits are the canonical
   * decimal text of n: they read back as n and have no leading zero.
   */
  lemma RenderWithLimit(s: State)
    requires s.limit >= 0
    ensures exists digits ::
      Render(s) == Render(s.(limit := -1)) + " LIMIT " + digits + ";"
      && IsDigits(digits) && DigitsValue(digits) == s.limit && (|digits| > 1 ==> digits[0] != '0')
  {
    var digits := IntToString(s.limit);
    var front := DefaultQuery(s.columns, s.table) + WhereSection(s.clauses) + OrderBySection(s.orderBy);
    assert Render(s.(limit := -1)) == front + "" == front;
    assert Render(s) == front + (" LIMIT " + digits + ";");
    ConcatAssoc(front, " LIMIT " + digits, ";");
    ConcatAssoc(front, " LIMIT ", digits);
    assert IsDigits(digits) && DigitsValue(digits) == s.limit && (|digits| > 1 ==> digits[0] != '0');
  }

  /** A negative limit renders exactly as no limit at all. */
  lemma RenderNegativeLimit(s: State, n: int)
    requires n < 0
    ensures Render(s.(limit := n)) == Render(s.(limit := -1))
  {
  }

  /**
   * A non-empty ordering puts ` ORDER BY <value>` after the WHERE section and
   * before any LIMIT text.
   */
  lemma RenderWithOrderBy(s: State)
    requires |s.orderBy| > 0
    ensures Render(s) == Render(s.(orderBy := "", limit := -1)) + " ORDER BY " + s.orderBy + LimitSection(s.limit)
    ensures IsInfix(" ORDER BY " + s.orderBy, Render(s))
  {
    var head := Render(s.(orderBy := "", limit := -1));
    assert Render(s) == head + (" ORDER BY " + s.orderBy) + LimitSection(s.limit);
    MiddleIsInfix(head, " ORDER BY " + s.orderBy, LimitSection(s.limit));
  }

  /**
   * With clauses present, the WHERE section directly follows the default
   * query, and the ORDER BY and LIMIT text follows it.
   */
  lemma RenderWithClauses(s: State)
    requires s.clauses != []
    ensures Render(s) == DefaultQuery(s.columns, s.table) + "WHERE " + Conditions(s.clauses)
      + OrderBySection(s.orderBy) + LimitSection(s.limit)
    ensures IsInfix("WHERE " + ClauseBody(s.clauses[0]), Render(s))
  {
    var cs := s.clauses;
    var front := DefaultQuery(s.columns, s.table);
    var w := WhereSection(cs);
    var suffix := OrderBySection(s.orderBy) + LimitSection(s.limit);
    var head := "WHERE " + ClauseBody(cs[0]);
    var rest := Followers(cs[1..]);
    assert w == "WHERE " + Conditions(cs);
    ConcatAssoc(front, "WHERE ", Conditions(cs));
    assert front + w == front + "WHERE " + Conditions(cs);
    ConcatAssoc(front + w, OrderBySection(s.orderBy), LimitSection(s.limit));
    assert Render(s) == (front + w) + suffix;
    assert Conditions(cs) == ClauseBody(cs[0]) + rest;
    ConcatAssoc("WHERE ", ClauseBody(cs[0]), rest);
    assert w == head + rest;
    ConcatAssoc(front, head, rest);
    ConcatAssoc(front + head, rest, suffix);
    assert Render(s) == (front + head) + (rest + suffix);
    MiddleIsInfix(front, head, rest + suffix);
  }

  /** Without clauses there is no WHERE section: the default query is followed by the suffixes. */
  lemma RenderWithoutClauses(s: State)
    requires s.clauses == []
    ensures Render(s) == DefaultQuery(s.columns, s.table) + OrderBySection(s.orderBy) + LimitSection(s.limit)
  {
  }
}
