# QueryBuilder in Dafny

A model of `QueryBuilder`, a fluent builder for one SQL `SELECT` statement,
together with proofs about it. The builder has two halves:

- **State accumulation.** The builder holds a table name fixed at construction.
  It also holds a select list, which defaults to `*` and which `select` replaces.
  Where-clauses are only ever appended. Each clause is either *structured*
  (column, operator, value and junction) or *raw* (a fragment and a junction).
  There is an integer limit, where a negative value means no limit. Finally
  there is an ordering string, which each `orderBy` call overwrites.
- **Deterministic rendering.** `toSql` writes that state out in a fixed order:
  `SELECT … FROM <table> `, then `WHERE …`, then ` ORDER BY …`, then
  ` LIMIT n;`.

Files:

- `wrappers.dfy`: `Option`, used for the optional third argument of `where`
  and `orWhere`.
- `text.dfy`:
  - `implode` as `Join`;
  - the numeric-literal test `IsNumeric`;
  - the decimal text of an integer, with a proof that the digits read back to
    the number;
  - string helpers used by the proofs.
- `sql.dfy`:
  - the `Clause`, `Junction` and `State` datatypes;
  - the value-quoting rule;
  - the WHERE, ORDER BY and LIMIT sections;
  - `Render`, the statement `toSql` must return, with lemmas about its text.
- `calls.dfy`: the public mutators as a `Call` datatype. `Run` folds a chain
  of calls into a state. Lemmas say what any chain does to each part of that
  state.
- `query_builder.dfy`:
  - the class `QueryBuilder`, whose fields are updated in place. Each mutator
    states its new state and proves it equal to `Apply` of the matching call;
  - `ToSql`, which builds the statement step by step, the where-clauses in a
    loop, and is proved equal to `Render`;
  - `BuildAndRender`, which replays any chain of calls on a real object and
    returns `Render(Run(…))`.
- `examples.dfy`: example call chains and their exact statements. Each chain
  is stated for any table name, column names and values. One extra lemma pins
  the quoting of two sample values, `18` and `Bob`.

Some behaviour is kept exactly as the source has it:

- The first clause's junction is stored but never rendered.
- Clause *i* is joined to clause *i-1* by clause *i*'s own junction.
- The three-argument `orWhere` stores AND, not OR.
- An empty third argument to `where` or `orWhere` counts as absent, because
  the source tests it with a loose `== null`.
- Values are quoted without escaping and column names are backticked without
  escaping.
- The builder adds a `;` only when there is a limit.

After construction `$orderBy` has no value: the code never initialises it
(QueryBuilder.php:11, 13-18), yet `toSql` reads it with `strlen` at line 130.
The model gives the unset ordering as the empty string, which `toSql` skips.
As written, `toSql` on a builder with no `orderBy` call raises a `TypeError`
at line 130 under `strict_types` (see "## Left out"). Every statement proved
here for such a builder is therefore the intended output, not what the code
as written produces.

## Model

| member | source | states |
|---|---|---|
| Builder.QueryBuilder.constructor | QueryBuilder.php:13-18 | sets each field to its initial value; the object's state equals `Run(table, [])` |
| Builder.QueryBuilder.Where | QueryBuilder.php:20-26 | appends exactly one clause with AND. With the third argument absent (missing or `""`) the clause is `column = valueOrOperator`; otherwise it is `column valueOrOperator value`. The other fields are unchanged |
| Builder.QueryBuilder.AppendWhere | QueryBuilder.php:28-37 | pushes one structured clause at the end; earlier clauses and the other fields are unchanged |
| Builder.QueryBuilder.WhereRaw | QueryBuilder.php:39-46 | appends one raw clause with AND; nothing else changes |
| Builder.QueryBuilder.OrWhere | QueryBuilder.php:48-54 | the two-argument form appends `column = value` with OR; the three-argument form appends with AND |
| Builder.QueryBuilder.OrWhereRaw | QueryBuilder.php:56-63 | appends one raw clause with OR; nothing else changes |
| Builder.QueryBuilder.Select | QueryBuilder.php:65-73 | the select list becomes exactly the backticked names, in order and of the same length; the clauses, limit and ordering are unchanged |
| Sql.BacktickedAll | QueryBuilder.php:65-73 | one item per column, in order; item i is two characters longer than column i, starts and ends with a backtick, and stripping those gives column i back |
| Builder.QueryBuilder.Limit | QueryBuilder.php:75-78 | overwrites the limit; nothing else changes |
| Builder.QueryBuilder.OrderBy | QueryBuilder.php:80-83 | overwrites the ordering with `column direction`, which is never empty; nothing else changes |
| Builder.QueryBuilder.BuildDefaultQuery | QueryBuilder.php:85-87 | the default query is a prefix of the statement the current state renders |
| Sql.DefaultQuery | QueryBuilder.php:86 | the default query starts with `SELECT ` and ends with ` FROM <table> `, including the trailing space |
| Text.Join | QueryBuilder.php:86 | `implode` of a non-empty list starts with the first item, and its length is the items' total length plus one separator for each gap |
| Calls.ClauseOf | QueryBuilder.php:20-63 | the junction is OR iff the call is `orWhereRaw` or a two-argument `orWhere`; the clause is raw iff the call is raw; a structured clause stores the call's column and a raw clause its fragment; gives the operator and value for the two-argument and three-argument forms |
| Sql.ParseClauseValue | QueryBuilder.php:89-91 | removing the quotes gives back the value; the value is emitted unchanged iff it is numeric; a non-numeric value is emitted starting with `'` |
| Text.IsNumeric | QueryBuilder.php:90 | a numeric value is non-empty, starts with a sign or a digit, and holds only digits and `.` after that, so it never contains a quote |
| Builder.QueryBuilder.AppendWhereClausesToQuery | QueryBuilder.php:93-111 | the loop yields the query, then `WHERE `, then the conditions of all clauses: the first bare, each later one after ` <its own junction> ` |
| Sql.ConditionsStep | QueryBuilder.php:96-107 | one loop step (separator when key ≥ 1, then the raw or structured body) extends the rendered conditions by exactly clause `key` |
| Sql.ConditionsSnoc | QueryBuilder.php:96-108 | appending a clause appends text only: its body if it is the first clause, else its junction and body |
| Sql.ConditionsAt | QueryBuilder.php:97-99 | clause i ≥ 1 follows the text of clauses 0..i-1 after ` ` + clause i's own junction + ` ` |
| Sql.FirstJunctionIgnored | QueryBuilder.php:97-99 | changing the first clause's junction does not change the rendered conditions |
| Sql.FollowersAppend | QueryBuilder.php:96-108 | the text of the later clauses distributes over concatenating clause lists |
| Builder.QueryBuilder.AppendOrderByToQuery | QueryBuilder.php:113-116 | with an ordering set, appends exactly the ORDER BY section |
| Builder.QueryBuilder.AppendLimitSqlToQuery | QueryBuilder.php:118-121 | with a limit set, appends exactly the LIMIT section; the result ends in `;` |
| Text.NatToString | QueryBuilder.php:119 | the decimal text of a limit is all digits with no leading zero |
| Text.NatToStringRoundTrip | QueryBuilder.php:119 | the decimal text of n reads back as n |
| Text.IntToString | QueryBuilder.php:119 | the text of n ≥ 0 is digits without a leading zero that read back as n; the text of n < 0 is `-` followed by such digits for -n |
| Builder.QueryBuilder.ToSql | QueryBuilder.php:123-139 | returns `Render` of the current state, starting with the default query; it has no `modifies` clause, so it writes no field |
| Builder.ToSqlTwice | QueryBuilder.php:123-139 | two consecutive `ToSql` calls return the same string |
| Builder.BuildAndRender | QueryBuilder.php:13-139 | replaying any chain of calls on a new object and calling `ToSql` gives `Render(Run(table, calls))` |
| Sql.RenderInitial | QueryBuilder.php:123-139 | the initial state renders as `SELECT * FROM <table> ` |
| Sql.Render | QueryBuilder.php:123-139 | every statement starts with the default query, and ends with `;` whenever the limit is set |
| Sql.RenderWithClauses | QueryBuilder.php:126-128 | with clauses, `WHERE ` and the conditions follow the default query directly, before ORDER BY and LIMIT; the statement contains `WHERE <first clause body>` |
| Sql.RenderWithoutClauses | QueryBuilder.php:126-128 | without clauses there is no WHERE section: the default query is followed directly by the ORDER BY and LIMIT sections |
| Sql.RenderWithOrderBy | QueryBuilder.php:130-132 | a non-empty ordering puts ` ORDER BY <ordering>` after the WHERE section and before the LIMIT text, and the statement contains it |
| Sql.RenderWithLimit | QueryBuilder.php:134-136 | a limit n ≥ 0 appends ` LIMIT <digits>;` as the last text of the statement; the digits are the canonical decimal text of n: they read back as n and have no leading zero |
| Sql.RenderNegativeLimit | QueryBuilder.php:134-136 | any negative limit renders exactly like no limit |
| Calls.RunTable | QueryBuilder.php:13-14 | no call changes the table |
| Calls.RunClauses | QueryBuilder.php:28-63 | after any chain, the clause list is exactly the clauses of the where-kind calls, in call order |
| Calls.RunClausesGrow | QueryBuilder.php:28-63 | later calls never remove or change earlier clauses: the old list is a prefix of the new one |
| Calls.ClausesOfAppend | QueryBuilder.php:28-63 | a where-kind call adds exactly its clause at the end, and any other call adds none |
| Calls.RunColumns | QueryBuilder.php:65-73 | the select list is `*` if there was no `select`, and otherwise the backticked names of the last `select` |
| Calls.RunLimit | QueryBuilder.php:75-78 | the limit is the amount of the last `limit` call, or -1 if there was none |
| Calls.LastLimitAppend | QueryBuilder.php:75-78 | a `limit` call overwrites the earlier amount, and any other call keeps it |
| Calls.RunOrderBy | QueryBuilder.php:80-83 | the ordering is empty iff there was no `orderBy` call; otherwise it is the column and direction of the last one |
| Calls.RunRendersLastOrderBy | QueryBuilder.php:80-83 | after `orderBy(c, d)` with no later `orderBy`, the statement contains ` ORDER BY c d` |
| Calls.RenderNoCalls | QueryBuilder.php:13-18 | a builder with no calls renders `SELECT * FROM <table> ` |
| Examples.FreshBuilder | QueryBuilder.php:85-87 | no calls gives `SELECT * FROM T ` |
| Examples.SelectTwoColumns | QueryBuilder.php:65-73 | `select([a, b])` gives ``SELECT `a`, `b` FROM T `` |
| Examples.WhereTwoArguments | QueryBuilder.php:20-26 | `where(c, v)`, with the third argument missing or empty, gives `SELECT * FROM T WHERE c = <v quoted by the rule>` |
| Examples.ExampleValues | QueryBuilder.php:89-91 | the sample value `18` is emitted bare and `Bob` as `'Bob'` |
| Examples.WhereThenOrWhere | QueryBuilder.php:48-54 | `where(c1, op, v1).orWhere(c2, v2)` gives `… WHERE c1 op v1 OR c2 = v2` |
| Examples.ThreeArgumentOrWhere | QueryBuilder.php:48-54 | `where(c1, v1).orWhere(c2, op, v2)` gives `… WHERE c1 = v1 AND c2 op v2`: AND, not OR |
| Examples.RawThenOrRaw | QueryBuilder.php:56-63 | `whereRaw(r1).orWhereRaw(r2)` gives `… WHERE r1 OR r2`, with the fragments verbatim |
| Examples.LimitOnly | QueryBuilder.php:75-78 | `limit(n)` with n ≥ 0 gives `SELECT * FROM T  LIMIT <n>;`, and the digits read back as n |
| Examples.NegativeLimit | QueryBuilder.php:134-136 | `limit(n)` with n < 0 gives `SELECT * FROM T `, with no LIMIT text and no `;` |
| Examples.OrderByThenLimit | QueryBuilder.php:80-83 | `orderBy(c1, d1).limit(n).orderBy(c2, d2)` gives `SELECT * FROM T  ORDER BY c2 d2 LIMIT <n>;` |

## Left out

- `is_numeric` is modelled as an optional sign followed by digits, with an optional `.` and more digits. PHP's full grammar is not modelled: surrounding whitespace, exponents such as `1e5`, a leading `.` such as `.5`, and a trailing `.` such as `1.`. For such values the model quotes what PHP emits bare: `where("x", "1.")` renders `x = '1.'` in the model and `x = 1.` in PHP.
- The uninitialised `$orderBy` is not modelled; the model starts with the empty string. As written, `toSql()` on any builder with no `orderBy` call passes `null` to `strlen` at QueryBuilder.php:130, which raises a `TypeError` under `strict_types`. So Sql.RenderInitial, Calls.RenderNoCalls and every example without `orderBy` state the intended output, not the output of the code as written.
- PHP's loose comparison is modelled only as far as the `== null` test on the optional argument, where `""` counts as absent. Other type juggling is not modelled.
- Integers are unbounded. PHP's integer width for `limit` is not modelled, because the builder does no arithmetic on the value.
- The fluent `return $this` is not modelled. Mutators are methods on the object, and the returned reference carries no behaviour.
- SQL validity, escaping and injection safety are not modelled, because the source does none of them.
- Running the SQL and connecting to a database do not exist in the source.
