# geektime-go-camp core, modelled in Dafny

This project models the core of the `geektime-go-camp` Go repository and proves
properties of the model. The core has four groups.

- **SQL builders of the ORM.**
  - The selector of `orm/HW_select` (select list, WHERE, GROUP BY, HAVING, ORDER BY, OFFSET, LIMIT).
  - The first selector of the `orm` root package.
  - The deleter of `orm/HW_delete`.
  - The shared statement builder of `orm/HW_subquery`.
  - The expression tree they walk: columns, values, aggregates, raw fragments and predicates.
  - The model registry that parses struct tags and names tables and columns.
- **Two in-memory caches.**
  - The byte-budgeted `MaxMemoryCache`, which keeps an LRU key list.
  - The TTL map `BuildInMapCache`.
- **The route tree of `web/router.go`.**
- **The dispatch decisions of the RPC server.**
  - The codec and service tables.
  - `Invoke` and the reflection stub's `invoke`.
  - How the call options are read from a request's `Meta`.
  - The identity compressor.

Each builder is a `class` with the Go struct's fields. `sb` is a `string` and `args` is a `seq<Value>`. Its methods append to them as the Go code does.

A function of type `Emit` (text appended, arguments appended, error) says what each step appends, up to the first error. Every build method is proved to extend `sb`/`args` by exactly that `Emit`, and the lemmas state what the `Emit` means:
- it fails exactly on an unknown field or an unsupported node, naming it;
- its arguments are the tree's values in placeholder order;
- every `?` has one argument;
- the clauses come in the order of the source.

`Build` is not re-entrant: a second call appends to the same `sb` and `args`, and the model keeps that state.

The caches, the router and the RPC server are classes over maps and sequences. Each method is proved against a function on values, and the invariants are proved about those functions:
- the cache's books stay exact;
- eviction goes oldest first;
- the route trees stay well formed;
- options written into `Meta` are read back unchanged.

Files:
- `wrappers.dfy`: `Option` and `Result`.
- `orm_errors.dfy`: the `errs` errors.
- `orm_expr.dfy`: the expression tree and its constructors.
- `sql_emit.dfy`: `Emit` and its composition.
- `go_strings.dfy`: `strings.Split` with a one-character separator.
- `orm_registry.dfy`: the model registry.
- `orm_select_hw.dfy`, `orm_select_hw_balance.dfy`, `orm_select_hw_examples.dfy`: the HW_select selector.
- `orm_select.dfy`: the root selector.
- `orm_delete.dfy`: the deleter.
- `orm_subquery.dfy`: the HW_subquery builder.
- `cache_max_memory.dfy`, `cache_local.dfy`: the caches.
- `web_router.dfy`: the route tree.
- `rpc_compressor.dfy`, `rpc_meta.dfy`, `rpc_server.dfy`: the RPC server.

The `orm` root package and `orm/HW_select` declare the same tree twice, with the same constructors. The model has one tree, one `Column` that carries an alias, and one set of constructors, cited from the file that defines each.

## Model

| member | source | states |
|---|---|---|
| OrmExpr.OpString | orm/HW_select/predicate.go:4-17 | an operator's text is empty exactly for the zero operator, so only AsPredicate's predicate is written without operator text |
| OrmExpr.OpStringInjective | orm/predicate.go:8-27 | distinct operators have distinct literal texts |
| OrmExpr.C | orm/column.go:29-31 | C(name) is the column of that name with an empty alias |
| OrmExpr.As | orm/column.go:12-17 | As gives a column with the same name and the new alias; the receiver is a value and stays as it was |
| OrmExpr.ValueOf | orm/column.go:25-27 | valueOf wraps its argument as a placeholder value |
| OrmExpr.ExprOf | orm/HW_select/predicate.go:68-75 | an Expression argument passes through unchanged; any other argument, nil included, becomes a value; the result is never the nil expression |
| OrmExpr.ColumnCompare | orm/column.go:34-56 | Eq/Lt/Gt put the column on the left, the operator in the middle and the argument as a value on the right |
| OrmExpr.Avg | orm/HW_select/aggregate.go:15-20 | Avg(c) is function AVG over field c with no alias |
| OrmExpr.AggregateAs | orm/aggregate.go:14-20 | As keeps the function and field and sets only the alias |
| OrmExpr.AggregateCompare | orm/HW_select/aggregate.go:23-45 | Eq/Gt/Lt put the aggregate on the left and exprOf(arg) on the right |
| OrmExpr.Raw | orm/HW_select/expression.go:8-13 | Raw keeps the text verbatim and the arguments in the given order |
| OrmExpr.AsPredicate | orm/HW_select/expression.go:17-21 | the raw fragment on the left, no operator and a nil right side |
| OrmExpr.Not | orm/HW_select/predicate.go:38-43 | Not(p) has a nil left side, operator NOT and p on the right |
| OrmExpr.AndP | orm/HW_select/predicate.go:46-52 | And keeps the receiver on the left and the argument on the right, with no simplification |
| OrmExpr.OrP | orm/HW_select/predicate.go:55-61 | Or keeps the receiver on the left and the argument on the right |
| OrmExpr.Asc | orm/HW_select/selector.go:411-416 | an ascending term keeps the column and has the keyword ASC |
| OrmExpr.Desc | orm/HW_select/selector.go:418-423 | a descending term keeps the column and has the keyword DESC |
| OrmExpr.AndAll | orm/selector.go:53-56 | the loop that folds WHERE computes ps[0].And(ps[1]).And(ps[2])... |
| OrmExpr.FoldAndValues | orm/HW_select/selector.go:123-128 | folding with And neither drops nor reorders any placeholder argument |
| OrmExpr.FoldAndFields | orm/HW_select/selector.go:123-128 | the folded predicate names exactly the fields the list names |
| OrmExpr.FoldAndNoAggregate | orm/selector.go:50-56 | the folded predicate holds an aggregate exactly when some predicate of the list does |
| OrmExpr.FoldAndOnlyColumnsValues | orm/HW_delete/deleter.go:42-48 | the folded predicate holds only columns, values and predicates exactly when every predicate of the list does |
| OrmExpr.FoldAndRawBalanced | orm/selector.go:50-56 | folding keeps every raw fragment's one-argument-per-`?` balance |
| SqlEmit.ShapeOutcome | orm/selector.go:114-141 | the Predicate case fails exactly when an operand fails, the left one first; on success its arguments are the left's, then the right's |
| SqlEmit.ShapeBalanced | orm/selector.go:114-141 | the Predicate case writes no `?` of its own, so balanced operands give a balanced predicate |
| SqlEmit.NotShape | orm/HW_select/selector.go:247-295 | Not(p) is written as ` NOT (` p `)`: the nil left writes nothing and the operator brings its leading space |
| SqlEmit.WhereNotText | orm/HW_select/selector.go:77-79 | ` WHERE ` followed by Not(p) reads ` WHERE  NOT (...)`, with two spaces |
| SqlEmit.ThenReports | orm/HW_select/selector.go:47-121 | stopping at the first error: two steps that each report their unknown fields report the union of them |
| SqlEmit.ThenYields | orm/HW_select/selector.go:47-121 | two successful steps append their arguments in order |
| SqlEmit.ExtendsThen | orm/HW_select/selector.go:47-121 | appending one step's text and arguments, then the next step's, is appending what their composition describes |
| SqlEmit.ThenAssoc | orm/HW_select/selector.go:47-121 | how the steps of Build are grouped does not change what they write or the error |
| RootSelect.Selector.constructor | orm/selector.go:16-22 | the zero selector: no table, no predicates, no model, nothing written |
| RootSelect.Selector.From | orm/selector.go:158-161 | From sets the table and returns the same selector |
| RootSelect.Selector.Where | orm/selector.go:180-183 | Where replaces the predicate list and returns the same selector |
| RootSelect.Selector.AddArg | orm/selector.go:185-194 | addArg appends its batch to args, and an empty batch changes nothing |
| RootSelect.Selector.BuildExpression | orm/selector.go:91-146 | buildExpression appends exactly what ExprEmit describes (column, `?` with its value, raw fragment in parentheses, predicate) and returns its error |
| RootSelect.Selector.BuildOperand | orm/selector.go:115-124 | an operand that is a predicate is written in parentheses, and the closing one is not written after an error |
| RootSelect.Selector.BuildPredicate | orm/selector.go:114-141 | left operand, spaced non-empty operator, right operand, stopping at the first error |
| RootSelect.Selector.BuildWhere | orm/selector.go:50-81 | ` WHERE ` and the And-folded predicates, only for a non-empty list |
| RootSelect.Selector.Build | orm/selector.go:24-89 | a failed model lookup is returned and nothing is written; otherwise sb and args grow by the statement, and the first error or the Query of sb and args is returned |
| RootSelect.ExprOutcome | orm/selector.go:91-146 | an expression succeeds exactly when it holds no aggregate and only known fields; an error names an unknown field of the tree or is ErrUnsupportedExpression; the arguments are the tree's values left to right |
| RootSelect.ExprBalanced | orm/selector.go:104-113 | every `?` written has its argument, given raw fragments that carry one argument per `?` |
| RootSelect.BuildSound | orm/selector.go:24-89 | Build succeeds exactly when WHERE holds no aggregate and only known fields; the error names such a field; Args are WHERE's values in order |
| RootSelect.BuildBalanced | orm/selector.go:24-89 | with no `?` in the table or the column names, every `?` of the statement has its argument |
| RootSelect.BuildShape | orm/selector.go:39-83 | the text starts with `SELECT * FROM` and the table, a successful statement ends in `;`, and with no predicates it is exactly `SELECT * FROM <table>;` |
| RootSelect.NotWhere | orm/selector.go:50-81 | WHERE with a lone Not(p) is written ` WHERE  NOT (p)` with p's arguments |
| HwDelete.Deleter.constructor | orm/HW_delete/deleter.go:9-15 | the zero deleter: no table, no predicates, no model, nothing written |
| HwDelete.Deleter.From | orm/HW_delete/deleter.go:17-20 | From sets the table and returns the same deleter |
| HwDelete.Deleter.Where | orm/HW_delete/deleter.go:22-25 | Where replaces the predicate list and returns the same deleter |
| HwDelete.Deleter.AddArg | orm/HW_delete/deleter.go:108-116 | addArg appends its batch, and an empty batch changes nothing |
| HwDelete.Deleter.BuildExpression | orm/HW_delete/deleter.go:60-106 | buildExpression appends exactly what ExprEmit describes; raw fragments and aggregates are ErrUnsupportedExpression |
| HwDelete.Deleter.BuildOperand | orm/HW_delete/deleter.go:75-84 | a predicate operand is parenthesised; nothing follows an error |
| HwDelete.Deleter.BuildPredicate | orm/HW_delete/deleter.go:74-101 | left operand, spaced non-empty operator, right operand, stopping at the first error |
| HwDelete.Deleter.BuildWhere | orm/HW_delete/deleter.go:42-52 | ` WHERE ` and the And-folded predicates, only for a non-empty list |
| HwDelete.Deleter.Build | orm/HW_delete/deleter.go:27-58 | a failed lookup is returned with nothing written; otherwise sb and args grow by the statement and the first error or the Query is returned |
| HwDelete.ExprOutcome | orm/HW_delete/deleter.go:60-106 | an expression succeeds exactly when it holds only columns of the model, values and predicates; an error names an unknown field or is ErrUnsupportedExpression; the arguments are the values in order |
| HwDelete.ExprBalanced | orm/HW_delete/deleter.go:71-73 | every `?` written has its argument |
| HwDelete.BuildSound | orm/HW_delete/deleter.go:27-58 | Build succeeds exactly when WHERE holds only known columns, values and predicates; the error says which; Args are WHERE's values in order |
| HwDelete.BuildBalanced | orm/HW_delete/deleter.go:27-58 | with no `?` in the table or the column names, every `?` has its argument |
| HwDelete.BuildShape | orm/HW_delete/deleter.go:33-53 | `DELETE FROM` and the table first, `;` last on success, exactly `DELETE FROM <table>;` with no predicates |
| HwDelete.NotWhere | orm/HW_delete/deleter.go:42-52 | WHERE with a lone Not(p) reads ` WHERE  NOT (p)` |
| HwSelect.Selector.constructor | orm/HW_select/selector.go:31-35 | a new selector has every clause empty and has written nothing |
| HwSelect.Selector.Select | orm/HW_select/selector.go:37-40 | Select replaces the select list and returns the same selector |
| HwSelect.Selector.From | orm/HW_select/selector.go:42-45 | From sets the table |
| HwSelect.Selector.Where | orm/HW_select/selector.go:358-361 | Where replaces the WHERE list |
| HwSelect.Selector.GroupBy | orm/HW_select/selector.go:377-380 | GroupBy replaces the grouping columns |
| HwSelect.Selector.Having | orm/HW_select/selector.go:382-385 | Having replaces the HAVING list |
| HwSelect.Selector.OrderBy | orm/HW_select/selector.go:387-390 | OrderBy replaces the ordering terms |
| HwSelect.Selector.Offset | orm/HW_select/selector.go:392-395 | Offset sets the offset |
| HwSelect.Selector.Limit | orm/HW_select/selector.go:397-400 | Limit sets the limit |
| HwSelect.Selector.AddArgs | orm/HW_select/selector.go:363-375 | addArgs appends its batch, and an empty batch leaves args as it was |
| HwSelect.Selector.BuildAs | orm/HW_select/selector.go:302-309 | ` AS `alias`` only for a non-empty alias |
| HwSelect.Selector.BuildColumn | orm/HW_select/selector.go:215-227 | a known field writes its backquoted column name and alias; an unknown one writes nothing and is ErrUnknownField |
| HwSelect.Selector.BuildAggregate | orm/HW_select/selector.go:229-242 | `fn(` and a backquote come before the lookup, so an unknown field leaves them in sb |
| HwSelect.Selector.BuildExpression | orm/HW_select/selector.go:244-300 | appends exactly what ExprEmit describes; a raw fragment is written without parentheses |
| HwSelect.Selector.BuildOperand | orm/HW_select/selector.go:269-278 | an operand that is a predicate is written in parentheses; the closing one is not written after an error |
| HwSelect.Selector.BuildPredicate | orm/HW_select/selector.go:268-295 | left operand, ` op ` for a non-empty operator, right operand, stopping at the first error |
| HwSelect.Selector.BuildPredicates | orm/HW_select/selector.go:123-154 | the list folded with And, written as one expression |
| HwSelect.Selector.BuildClause | orm/HW_select/selector.go:77-96 | the keyword and the folded predicates only for a non-empty list, as WHERE and HAVING are written |
| HwSelect.Selector.WriteSep | orm/HW_select/selector.go:191-193 | a comma before every entry but the first |
| HwSelect.Selector.BuildSelectable | orm/HW_select/selector.go:194-210 | a column with its alias, an aggregate with its alias, or a raw fragment verbatim with its arguments |
| HwSelect.Selector.BuildSelectEntry | orm/HW_select/selector.go:190-211 | one entry of the select list after its separator; the error is the entry's |
| HwSelect.Selector.BuildSelectList | orm/HW_select/selector.go:190-212 | the entries joined by commas with no spaces, up to the first error |
| HwSelect.Selector.BuildColumns | orm/HW_select/selector.go:185-213 | `*` for an empty select list, otherwise the list |
| HwSelect.Selector.BuildGroupBy | orm/HW_select/selector.go:156-166 | the grouping columns comma-separated, without aliases, up to the first error |
| HwSelect.Selector.BuildGroupByClause | orm/HW_select/selector.go:84-89 | ` GROUP BY ` and the columns only for a non-empty list; no arguments |
| HwSelect.Selector.BuildOrderBy | orm/HW_select/selector.go:168-183 | each term is the column, a space and its keyword, comma-separated, up to the first error |
| HwSelect.Selector.BuildOrderTerm | orm/HW_select/selector.go:175-180 | the column, then a space and the ordering keyword, nothing after an unknown column |
| HwSelect.Selector.BuildOrderEntry | orm/HW_select/selector.go:170-181 | one ordering term after its separator; the error is the term's |
| HwSelect.Selector.BuildOrderByClause | orm/HW_select/selector.go:98-103 | ` ORDER BY ` and the terms only for a non-empty list; no arguments |
| HwSelect.Selector.BuildCount | orm/HW_select/selector.go:106-114 | ` OFFSET ?` or ` LIMIT ?` with the number as its argument, only for a positive number |
| HwSelect.Selector.BuildHead | orm/HW_select/selector.go:63-74 | `SELECT `, the columns, ` FROM ` and the table (backquoted model name or verbatim From), with nothing after a failing column |
| HwSelect.Selector.BuildFilter | orm/HW_select/selector.go:77-103 | WHERE, GROUP BY, HAVING and ORDER BY in that order, each only for a non-empty list, stopping at the first error |
| HwSelect.Selector.Build | orm/HW_select/selector.go:47-121 | a failed lookup is returned with nothing written; otherwise sb and args grow by the whole statement, and the first error or the Query of sb and args is returned |
| HwSelect.SelectListFailSticks | orm/HW_select/selector.go:190-212 | once a select-list entry fails, the later entries write nothing |
| HwSelect.GroupByFailSticks | orm/HW_select/selector.go:156-166 | once a grouping column fails, nothing more is written |
| HwSelect.OrderByFailSticks | orm/HW_select/selector.go:168-183 | once an ordering term fails, nothing more is written |
| HwSelect.AggregateSound | orm/HW_select/selector.go:229-242 | an aggregate fails exactly on an unknown field, naming it, and has no arguments |
| HwSelect.ExprSound | orm/HW_select/selector.go:244-300 | an expression fails exactly when it names an unknown field, and its error names one; on success its arguments are its values left to right |
| HwSelect.PredicatesSound | orm/HW_select/selector.go:123-154 | the folded list reports its unknown fields and yields its values in list order |
| HwSelect.ClauseSound | orm/HW_select/selector.go:77-96 | a WHERE or HAVING clause reports its unknown fields and yields its values |
| HwSelect.SelectListSound | orm/HW_select/selector.go:185-213 | the select list reports its unknown fields and yields the raw entries' arguments |
| HwSelect.GroupBySound | orm/HW_select/selector.go:156-166 | GROUP BY fails exactly on an unknown column and adds no arguments |
| HwSelect.OrderBySound | orm/HW_select/selector.go:168-183 | ORDER BY fails exactly on an unknown column and adds no arguments |
| HwSelect.GroupByClauseSound | orm/HW_select/selector.go:84-89 | the GROUP BY clause fails exactly on an unknown grouping column, naming it, and adds no arguments |
| HwSelect.OrderByClauseSound | orm/HW_select/selector.go:98-103 | the ORDER BY clause fails exactly on an unknown ordering column, naming it, and adds no arguments |
| HwSelect.HeadSound | orm/HW_select/selector.go:63-74 | the head reports the select list's unknown fields and yields its arguments |
| HwSelect.FilterReports | orm/HW_select/selector.go:63-103 | everything before OFFSET fails exactly on an unknown field of some clause, naming it |
| HwSelect.FilterYields | orm/HW_select/selector.go:63-103 | everything before OFFSET yields the select list's, WHERE's and HAVING's arguments in that order |
| HwSelect.FilterSound | orm/HW_select/selector.go:63-103 | up to ORDER BY the statement reports its unknown fields and yields the select list's, WHERE's and HAVING's arguments |
| HwSelect.BuildSound | orm/HW_select/selector.go:47-121 | Build fails exactly when the statement names an unknown field, and the error names one; Args are the select list's, WHERE's, HAVING's, then OFFSET's and LIMIT's |
| HwSelect.NotWhere | orm/HW_select/selector.go:77-81 | WHERE with a lone Not(p) reads ` WHERE  NOT (p)` |
| HwSelectBalance.ColumnBalanced | orm/HW_select/selector.go:215-227 | a column writes no `?` when its name and alias hold none |
| HwSelectBalance.AggregateBalanced | orm/HW_select/selector.go:229-242 | an aggregate writes no `?` when its function, column and alias hold none |
| HwSelectBalance.ExprBalanced | orm/HW_select/selector.go:244-300 | each `?` an expression writes has one argument |
| HwSelectBalance.ClauseBalanced | orm/HW_select/selector.go:77-96 | WHERE and HAVING are balanced |
| HwSelectBalance.SelectListBalanced | orm/HW_select/selector.go:185-213 | the select list is balanced |
| HwSelectBalance.GroupByBalanced | orm/HW_select/selector.go:156-166 | GROUP BY writes no `?` |
| HwSelectBalance.OrderByBalanced | orm/HW_select/selector.go:168-183 | ORDER BY writes no `?` |
| HwSelectBalance.KeywordsHaveOnePlaceholder | orm/HW_select/selector.go:106-114 | ` OFFSET ?` and ` LIMIT ?` each hold exactly one `?` |
| HwSelectBalance.BuildBalanced | orm/HW_select/selector.go:47-121 | the number of `?` in the statement equals len(Args), when nothing copied verbatim holds a `?` and every raw fragment carries one argument per `?` |
| HwSelectExamples.EmptyClauses | orm/HW_select/selector.go:77-103 | with every clause list empty nothing follows the table |
| HwSelectExamples.HeadNoColumns | orm/HW_select/selector.go:185-188 | with no columns selected the head is `SELECT * FROM <table>` |
| HwSelectExamples.FilterParts | orm/HW_select/selector.go:63-103 | when every clause succeeds the statement is the clauses' texts and arguments in source order |
| HwSelectExamples.TailParts | orm/HW_select/selector.go:106-115 | OFFSET before LIMIT, each only when positive, then `;` |
| HwSelectExamples.OffsetLimitExample | orm/HW_select/selector_test.go:34-40 | offset 10 and limit 10 give ``SELECT * FROM `test_model` OFFSET ? LIMIT ?;`` with arguments 10, 10 |
| HwSelectExamples.InvalidGroupByExample | orm/HW_select/selector_test.go:184-187 | grouping by the unknown field Invalid fails with ErrUnknownField("Invalid") |
| HwSelectExamples.EqText | orm/HW_select/selector.go:268-295 | `C(f).Eq(v)` is written as the backquoted column, ` = `, `?`, with the one argument v |
| HwSelectExamples.JoinedText | orm/HW_select/selector.go:268-295 | two predicates joined by an operator are written `(left) OP (right)`, arguments left before right |
| HwSelectExamples.NotText | orm/HW_select/selector.go:244-295 | `Not(p)` writes nothing on the left, then ` NOT (p)` |
| HwSelectExamples.OneClause | orm/HW_select/selector.go:123-154 | WHERE or HAVING over one predicate is the keyword followed by that predicate |
| HwSelectExamples.TwoClause | orm/HW_select/selector.go:123-128 | WHERE or HAVING over two predicates writes them joined with And |
| HwSelectExamples.NoCounts | orm/HW_select/selector.go:106-115 | without OFFSET and LIMIT the statement ends with `;` right after the clauses |
| HwSelectExamples.Assembled | orm/HW_select/selector.go:63-115 | the statement is head, WHERE, GROUP BY, HAVING, ORDER BY, `;`, arguments in the same order |
| HwSelectExamples.GroupByAgeFirstName | orm/HW_select/selector.go:156-166 | GROUP BY over Age and FirstName is `` GROUP BY `age`,`first_name` `` |
| HwSelectExamples.GroupByAge | orm/HW_select/selector.go:156-166 | GROUP BY over Age alone is `` GROUP BY `age` `` with no comma |
| HwSelectExamples.OrderByAgeId | orm/HW_select/selector.go:168-183 | ORDER BY Asc("Age"), Desc("Id") is `` ORDER BY `age` ASC,`id` DESC `` |
| HwSelectExamples.HavingLastFirst | orm/HW_select/selector_test.go:121-128 | the HAVING clause of two Eq predicates is `` HAVING (`last_name` = ?) AND (`first_name` = ?) `` with arguments "Jared", "Wang" |
| HwSelectExamples.AvgEqNilText | orm/HW_select/aggregate.go:23-28 | `Avg("Age").Eq(nil)` is written ``AVG(`age`) = ?`` with nil as its one argument |
| HwSelectExamples.HavingAvgAge | orm/HW_select/selector_test.go:130-137 | the HAVING clause of `Avg("Age").Eq(18)` is `` HAVING AVG(`age`) = ? `` with argument 18 |
| HwSelectExamples.WhereIdOrId | orm/HW_select/selector_test.go:269-276 | the WHERE clause of an Or is `` WHERE (`id` = ?) OR (`id` = ?) `` with arguments 1, 12 |
| HwSelectExamples.WhereNotId | orm/HW_select/selector_test.go:278-286 | the WHERE clause of a Not has two spaces before NOT: `` WHERE  NOT (`id` = ?) `` |
| HwSelectExamples.GroupByMultipleExample | orm/HW_select/selector_test.go:176-181 | `GroupBy(C("Age"), C("FirstName"))` gives ``SELECT * FROM `test_model` GROUP BY `age`,`first_name`;`` with no arguments |
| HwSelectExamples.OrderByColumnsExample | orm/HW_select/selector_test.go:71-76 | `OrderBy(Asc("Age"), Desc("Id"))` gives ``SELECT * FROM `test_model` ORDER BY `age` ASC,`id` DESC;`` |
| HwSelectExamples.HavingMultipleExample | orm/HW_select/selector_test.go:121-128 | grouping by Age with two HAVING predicates gives ``... GROUP BY `age` HAVING (`last_name` = ?) AND (`first_name` = ?);`` with arguments "Jared", "Wang" |
| HwSelectExamples.HavingAvgExample | orm/HW_select/selector_test.go:130-137 | grouping by Age having `Avg("Age").Eq(18)` gives ``... GROUP BY `age` HAVING AVG(`age`) = ?;`` with argument 18 |
| HwSelectExamples.FromDbExample | orm/HW_select/selector_test.go:234-240 | ``From("`test_db`.`test_table`")`` is written as given: ``SELECT * FROM `test_db`.`test_table`;`` |
| HwSelectExamples.OrExample | orm/HW_select/selector_test.go:269-276 | an Or in WHERE gives ``SELECT * FROM `test_table` WHERE (`id` = ?) OR (`id` = ?);`` with arguments 1, 12 |
| HwSelectExamples.NotExample | orm/HW_select/selector_test.go:278-286 | a Not in WHERE gives ``SELECT * FROM `test_table` WHERE  NOT (`id` = ?);`` with argument 1 |
| HwSubquery.Builder.constructor | orm/HW_subquery/builder.go:9-16 | an empty builder over the given quote character, model and registry |
| HwSubquery.Builder.Quote | orm/HW_subquery/builder.go:74-78 | the name between two quote characters |
| HwSubquery.Builder.Raw | orm/HW_subquery/builder.go:80-85 | the raw text, and its arguments only when there are any |
| HwSubquery.Builder.AddArgs | orm/HW_subquery/builder.go:87-94 | the batch appended; an empty batch changes nothing |
| HwSubquery.Builder.BuildAs | orm/HW_subquery/builder.go:194-199 | ` AS ` and the quoted alias for a non-empty alias |
| HwSubquery.Builder.BuildColumn | orm/HW_subquery/builder.go:20-35 | the quoted table alias and `.` only for a table with an alias, then the quoted column name colName finds, or colName's error |
| HwSubquery.Builder.BuildAggregate | orm/HW_subquery/builder.go:180-192 | `fn(`, the column, `)`, then the alias when asked |
| HwSubquery.Builder.BuildCloseAggregate | orm/HW_subquery/builder.go:186-190 | `)` then the quoted alias only when asked |
| HwSubquery.Builder.BuildSubquery | orm/HW_subquery/builder.go:203-221 | the inner statement minus its last character in parentheses with the inner arguments, the alias when asked; a failed inner Build is returned |
| HwSubquery.Builder.BuildExpression | orm/HW_subquery/builder.go:104-134 | appends exactly what ExprEmit describes and returns its error |
| HwSubquery.Builder.BuildBinaryExpr | orm/HW_subquery/builder.go:136-150 | left operand, ` op` for a non-empty operator, then a space and the right operand when there is one |
| HwSubquery.Builder.BuildSubExpr | orm/HW_subquery/builder.go:152-178 | a binary operand in parentheses, any other as it is |
| HwSubquery.Builder.BuildPredicates | orm/HW_subquery/builder.go:96-102 | the list folded with And, written as one expression |
| HwSubquery.ColNameOrigin | orm/HW_subquery/builder.go:37-72 | colName returns fd itself (a subquery column selected under that alias) or a column name from the builder's or some entity's model; its only errors are the unknown field, the unsupported table reference and the registry's |
| HwSubquery.ColumnsOrigin | orm/HW_subquery/builder.go:55-68 | the scan of a subquery's columns has the same origins and errors |
| HwSubquery.ColumnsFirstMatch | orm/HW_subquery/builder.go:55-68 | the first column matching by alias gives fd; the first matching by field name resolves against that column's target |
| HwSubquery.ColumnsMiss | orm/HW_subquery/builder.go:55-68 | with no matching column the field is unknown |
| HwSubquery.SubLikeExpr | orm/HW_subquery/builder.go:152-178 | an operand fails or succeeds as the expression does, with the same arguments; only parentheses differ |
| HwSubquery.ExprOutcome | orm/HW_subquery/builder.go:104-134 | an expression is written without error exactly when every column, aggregate and subquery in it resolves and no unsupported node occurs; its arguments are its values, raw arguments and subquery arguments in order |
| HwSubquery.BinaryOutcome | orm/HW_subquery/builder.go:136-150 | a binary expression succeeds exactly when both operands resolve, and yields the left's arguments then the right's |
| HwSubquery.PredicatesOutcome | orm/HW_subquery/builder.go:96-102 | buildPredicates succeeds exactly when every predicate resolves and appends their values in list order |
| HwSubquery.AndFoldOutcome | orm/HW_subquery/builder.go:96-102 | folding keeps the values in order and resolves exactly when every element does |
| HwSubquery.SubqueryText | orm/HW_subquery/builder.go:203-221 | a built statement ending in `;` is written as `(`, the statement without `;`, `)`, with its arguments; the alias adds only ` AS ` and the quoted alias |
| GoStrings.Split | orm/HW_select/model/registry.go:140-143 | strings.Split gives at least one piece |
| GoStrings.SplitPiecesClean | orm/HW_select/model/registry.go:140-143 | no piece holds the separator |
| GoStrings.JoinSplit | web/router.go:42-44 | joining the pieces with the separator gives the string back |
| GoStrings.SplitJoin | web/router.go:42-44 | splitting the join of separator-free pieces gives the pieces back |
| GoStrings.SplitWithoutSep | orm/HW_select/model/registry.go:140-143 | a string without the separator is one piece |
| GoStrings.SplitCount | orm/HW_select/model/registry.go:140-143 | one more piece than there are separators |
| OrmRegistry.UnderlineName | orm/HW_select/model/registry.go:153-167 | the loop computes Underlined: each upper-case letter lowered with `_` before it unless first, everything else copied |
| OrmRegistry.UnderlinedIsLoweredWithSeparators | orm/HW_select/model/registry.go:153-167 | removing the inserted underscores gives the lower-cased name back |
| OrmRegistry.UnderlinedHasNoUpper | orm/HW_select/model/registry.go:153-167 | no upper-case letter is left |
| OrmRegistry.UnderlinedLength | orm/HW_select/model/registry.go:153-167 | one `_` added per upper-case letter after the first character |
| OrmRegistry.IdUnderlined | orm/HW_select/model/registry.go:153-167 | "ID" becomes "i_d" |
| OrmRegistry.Table1NameUnderlined | orm/HW_select/model/registry.go:153-167 | "Table1Name" becomes "table1_name" |
| OrmRegistry.TestModelUnderlined | orm/HW_select/model/registry.go:119-125 | the TestModel type is stored under table `test_model` |
| OrmRegistry.FirstNameUnderlined | orm/HW_select/model/registry_test.go:18-31 | FirstName maps to column `first_name` |
| OrmRegistry.ParseTag | orm/HW_select/model/registry.go:134-151 | the loop computes TagSpec: an empty tag is the empty map, pairs folded in order |
| OrmRegistry.TagMapOutcome | orm/HW_select/model/registry.go:142-149 | the tag parses exactly when every pair splits on `=` into two parts; otherwise the error names the first bad pair |
| OrmRegistry.TagMapLookup | orm/HW_select/model/registry.go:142-149 | the map holds exactly the keys of the pairs, and a repeated key keeps its last value |
| OrmRegistry.TagMapFailureSticks | orm/HW_select/model/registry.go:142-149 | the first malformed pair ends the parse with its error |
| OrmRegistry.ColumnNameIgnoresOtherKeys | orm/HW_select/model/registry.go:110-113 | only the `column` key decides the column name |
| OrmRegistry.SplitPair | orm/HW_select/model/registry.go:143-146 | `k=v` with no `=` in k or v splits into exactly k and v |
| OrmRegistry.TagSingle | orm/HW_select/model/registry.go:134-151 | a one-pair tag gives the map of that one key |
| OrmRegistry.TagColumnExample | orm/HW_select/model/registry_test.go:73-80 | `column=id` gives {column: id} |
| OrmRegistry.TagInvalidExample | orm/HW_select/model/registry_test.go:90-95 | a bare `column` is ErrInvalidTagContent("column") |
| OrmRegistry.TagIgnoredExample | orm/HW_select/model/registry_test.go:102-110 | `abc=abc` is kept but FirstName still maps to first_name |
| OrmRegistry.ParseModel | orm/HW_select/model/registry.go:90-131 | the field loop and table-name choice compute ParseModelSpec |
| OrmRegistry.FieldsSpecOutcome | orm/HW_select/model/registry.go:100-118 | the fields parse exactly when every field's tag parses |
| OrmRegistry.FieldsSpecKeys | orm/HW_select/model/registry.go:100-118 | FieldMap has exactly one key per Go field name |
| OrmRegistry.FieldsSpecValues | orm/HW_select/model/registry.go:100-118 | each field's entry holds its tag's column or its snake_case name |
| OrmRegistry.FieldsSpecFailureSticks | orm/HW_select/model/registry.go:100-118 | the first field with a bad tag ends the parse |
| OrmRegistry.ParseModelPointerOnly | orm/HW_select/model/registry.go:90-131 | only a one-level pointer to a struct parses, anything else is ErrPointerOnly; the table is TableName() when non-empty, else the snake_case type name |
| OrmRegistry.ApplyOptionsFailureSticks | orm/HW_select/model/registry.go:76-81 | the first failing option aborts with its error |
| OrmRegistry.Registry.constructor | orm/HW_select/model/registry.go:33-35 | a new registry holds no models |
| OrmRegistry.Registry.Register | orm/HW_select/model/registry.go:71-86 | parse, apply options in order, store under the type only on success |
| OrmRegistry.Registry.Get | orm/HW_select/model/registry.go:38-45 | a registered type's cached model is returned unchanged; otherwise the type is parsed and stored on success |
| OrmRegistry.GetTwice | orm/HW_select/model/registry.go:38-45 | after a successful Get the next Get returns the same model |
| MaxMemory.MaxMemoryCache.constructor | cache/HW_memory_limit/max_memory_cache.go:24-33 | nothing counted and nothing listed, so the list invariant holds from the start, whatever the inner cache holds |
| MaxMemory.MaxMemoryCache.DeleteKey | cache/HW_memory_limit/max_memory_cache.go:97-108 | the scan removes the first occurrence of the key and nothing else |
| MaxMemory.MaxMemoryCache.Evicted | cache/HW_memory_limit/max_memory_cache.go:92-95 | the callback lowers used by the value's size and unlists the key |
| MaxMemory.MaxMemoryCache.Set | cache/HW_memory_limit/max_memory_cache.go:35-54 | LoadAndDelete on the key, then the head of the list deleted while the value does not fit, an error when the list runs out, then the inner Set recorded only if accepted; the list stays free of duplicates and of keys the inner cache lacks, and exact books stay exact |
| MaxMemory.MaxMemoryCache.Get | cache/HW_memory_limit/max_memory_cache.go:56-69 | a hit returns the value and moves the key to the tail; a miss returns the inner error and changes nothing; the list invariant and exact books are kept |
| MaxMemory.MaxMemoryCache.Delete | cache/HW_memory_limit/max_memory_cache.go:71-75 | forwarded to the inner cache, whose callback updates the books; the list invariant and exact books are kept |
| MaxMemory.MaxMemoryCache.InnerDelete | cache/HW_memory_limit/max_memory_cache.go:71-75 | the inner Delete with its eviction callback: the key's entry, size and list place go, the budget stays |
| MaxMemory.MaxMemoryCache.InnerLoadAndDelete | cache/HW_memory_limit/max_memory_cache.go:86-90 | the removed value for a stored key, NotFound otherwise, with the same books as Delete |
| MaxMemory.RemoveFirstAt | cache/HW_memory_limit/max_memory_cache.go:97-108 | the key's first occurrence is the one removed |
| MaxMemory.RemoveFirstAbsent | cache/HW_memory_limit/max_memory_cache.go:97-108 | an unlisted key leaves the list as it is |
| MaxMemory.RemoveFirstMultiset | cache/HW_memory_limit/max_memory_cache.go:97-108 | exactly one occurrence of a listed key is removed |
| MaxMemory.RemoveFirstDistinct | cache/HW_memory_limit/max_memory_cache.go:97-108 | on a list without duplicates the key is gone and every other key stays |
| MaxMemory.SizeRemoveFirst | cache/HW_memory_limit/max_memory_cache.go:92-95 | unlisting a key takes its size off the total |
| MaxMemory.DropListed | cache/HW_memory_limit/max_memory_cache.go:92-108 | after a delete the key is neither stored nor listed, and every listed key is still stored |
| MaxMemory.StoreValid | cache/HW_memory_limit/max_memory_cache.go:48-53 | storing a new key at the tail and adding its size keeps used equal to the listed sizes |
| MaxMemory.DropValid | cache/HW_memory_limit/max_memory_cache.go:71-75 | the inner Delete with its callback keeps used equal to the listed sizes |
| MaxMemory.EvictForValid | cache/HW_memory_limit/max_memory_cache.go:41-47 | the eviction loop fails exactly when the value alone is over the budget, and on success the value fits |
| MaxMemory.EvictForOldestFirst | cache/HW_memory_limit/max_memory_cache.go:41-47 | eviction removes keys from the head: what is left is a suffix of the list |
| MaxMemory.SetValid | cache/HW_memory_limit/max_memory_cache.go:35-54 | Set keeps the books exact, fails exactly when the value exceeds the budget, leaves used within the budget, and puts an accepted value at the tail |
| MaxMemory.TouchValid | cache/HW_memory_limit/max_memory_cache.go:56-69 | moving the key to the tail keeps the books exact and the same keys listed |
| MaxMemory.EvictForListed | cache/HW_memory_limit/max_memory_cache.go:41-47 | the eviction loop keeps the list free of duplicates and of keys the inner cache lacks |
| MaxMemory.SetListed | cache/HW_memory_limit/max_memory_cache.go:35-54 | Set keeps that list invariant, whether or not the books were exact before |
| MaxMemory.TouchListed | cache/HW_memory_limit/max_memory_cache.go:56-69 | moving a stored key to the tail keeps that list invariant |
| MaxMemory.OverwriteExample | cache/HW_memory_limit/max_memory_cache_test.go:38-67 | overwriting a 6-byte value counts only the new size (10 or 4) |
| MaxMemory.MultiDeleteExample | cache/HW_memory_limit/max_memory_cache_test.go:86-103 | a 22-byte value under budget 25 evicts all three 6-byte keys, oldest first |
| LocalCache.BuildInMapCache.constructor | cache/local_cache.go:35-73 | a new cache is empty and has reported nothing |
| LocalCache.BuildInMapCache.Set | cache/local_cache.go:81-97 | the item is stored with deadline now+expiration for a positive expiration, none otherwise, replacing any old item without a callback |
| LocalCache.BuildInMapCache.DeleteKey | cache/local_cache.go:136-143 | a stored key is removed and reported once; an absent key is a no-op |
| LocalCache.BuildInMapCache.Delete | cache/local_cache.go:129-134 | Delete is delete and always succeeds |
| LocalCache.BuildInMapCache.Get | cache/local_cache.go:99-127 | missing or expired keys are not found, and an expired one is deleted and reported; a live key returns its value and changes nothing |
| LocalCache.SetThenLookup | cache/local_cache.go:87-127 | a value set with a positive expiration is found until its deadline and not after; without one it is always found |
| LocalCache.SetOtherKey | cache/local_cache.go:87-97 | setting one key does not change what Get returns for another |
| LocalCache.LookupIdempotent | cache/local_cache.go:99-127 | a second Get at the same time gives the same answer and removes nothing more |
| LocalCache.AfterLookupKeeps | cache/local_cache.go:111-124 | Get removes at most the key it was asked for |
| LocalCache.ExpiredStaysExpired | cache/local_cache.go:29-31 | once past its deadline an item stays expired |
| WebRouter.Router.constructor | web/router.go:18-20 | a new router has no trees, so every tree is well formed |
| WebRouter.Router.ChildOrCreateAt | web/router.go:54-67 | the child for the segment, created with that path when missing |
| WebRouter.Router.TreeFor | web/router.go:24-32 | the method's tree, created with a `/` root on first use; other trees untouched; every tree stays well formed |
| WebRouter.Router.SetHandler | web/router.go:35-51 | only the target node's handler changes |
| WebRouter.Router.WalkRoute | web/router.go:42-50 | one childOrCreate per segment, each from the node the previous returned |
| WebRouter.Router.AddToTree | web/router.go:35-51 | `/` sets the root's handler; another path walks its segments and sets the last node's handler |
| WebRouter.Router.AddRoute | web/router.go:22-52 | the method's tree becomes AddTo of its old tree (or a new root), and every tree stays well formed: a `/` root, each node under its parent with its own segment as path |
| WebRouter.Segments | web/router.go:42-44 | a path other than `/` gives at least one segment |
| WebRouter.Walk | web/router.go:42-50 | the walk keeps every node and creates every prefix of the route |
| WebRouter.WalkKeys | web/router.go:42-50 | the walk's nodes are the old ones and the prefixes of the route, nothing else |
| WebRouter.WalkKeeps | web/router.go:54-67 | childOrCreate never replaces an existing node |
| WebRouter.WalkNew | web/router.go:54-67 | every node the walk creates has its own segment as path and no handler |
| WebRouter.WalkExisting | web/router.go:54-67 | walking a route whose nodes all exist changes nothing |
| WebRouter.WalkAdds | web/router.go:42-50 | the walk adds exactly the route's missing nodes, each with its segment and no handler, and leaves the others as they were |
| WebRouter.AddToWellFormed | web/router.go:22-67 | AddRoute keeps a tree well formed: a `/` root, and every node under its parent with its own segment as path |
| WebRouter.AddToRoot | web/router.go:35-38 | `/` only sets the root's handler and creates nothing |
| WebRouter.AddToSegments | web/router.go:42-51 | another path is the walked tree with the handler on the last segment's node |
| WebRouter.AddToEffect | web/router.go:22-52 | the route's node holds h, the nodes added are those on the route that were missing, and every other node is unchanged |
| WebRouter.AddToTwice | web/router.go:54-67 | adding a route again creates no node and the later handler wins |
| WebRouter.OtherMethodsKept | web/router.go:24-32 | a route under one method leaves every other method's tree alone |
| WebRouter.SegmentsRebuildPath | web/router.go:42-44 | for a path starting with `/`, the segments joined by `/` give the path back, so empty segments from `//` are kept |
| RpcCompressor.DefaultCompressor | micro/rpc/Compressor/types.go:12-22 | code 0; both directions return their input and never fail |
| RpcCompressor.DefaultRoundTrips | micro/rpc/Compressor/types.go:16-22 | Decompress(Compress(x)) == x for every byte sequence |
| RpcMeta.ParseInt64 | micro/rpc/server.go:90-96 | a parsed deadline is always within int64 |
| RpcMeta.FormatNatDigits | micro/rpc/client.go:58-63 | the written deadline is decimal digits whose value is the number |
| RpcMeta.ParseFormat | micro/rpc/server.go:90-96 | ParseInt undoes FormatInt on every int64 |
| RpcMeta.OptionsRoundTrip | micro/rpc/server.go:90-100 | the server reads back the deadline and oneway flag the client wrote |
| RpcMeta.UnparsableDeadlineIgnored | micro/rpc/server.go:90-96 | a deadline that does not parse is ignored, not an error |
| RpcServer.Server.constructor | micro/rpc/server.go:23-32 | no services, the JSON serializer under its code, the default compressor under 0 |
| RpcServer.Server.RegisterSerializer | micro/rpc/server.go:34-36 | keyed by code; a later one replaces an earlier one |
| RpcServer.Server.RegisterCompressor | micro/rpc/server.go:38-40 | keyed by code; a later one replaces an earlier one |
| RpcServer.Server.RegisterService | micro/rpc/server.go:42-49 | keyed by name; a later one replaces an earlier one |
| RpcServer.Server.ServeAsWritten | micro/rpc/server.go:101-106 | the stored error is Invoke's error; the store needs Invoke to have returned a response |
| RpcServer.InvokeEchoes | micro/rpc/server.go:133-138 | every response echoes the request's id, version, compressor and serializer |
| RpcServer.InvokeOutcome | micro/rpc/server.go:118-157 | no response exactly for a oneway call to a known service, with an error; an unknown service gives the echoed response with no data and an error |
| RpcServer.StubCodecOrder | micro/rpc/server.go:172-179 | the serializer is looked up before the compressor, and either unknown fails before decoding |
| RpcServer.StubFailsBeforeCall | micro/rpc/server.go:180-187 | a decompression or decoding failure is returned without calling the method |
| RpcServer.StubDeliversArgument | micro/rpc/server.go:180-208 | decompressed then decoded data reaches the method as its argument; a nil result gives no data, otherwise the serialized result, with the method's error |
| RpcServer.OnewayBreaksServe | micro/rpc/server.go:142-147 | a oneway request to a known service leaves Invoke without a response |
| RpcServer.ServeOutcome | micro/rpc/server.go:75-116 | the corrected loop writes no frame exactly for a oneway call to a known service; every other response echoes the request, carries Invoke's error and matches the code as written |

## Left out

- Sockets, the accept loop, goroutines and mutexes. That is the RPC server's `Start` and the socket reads and writes of `handleConn`, the goroutine that runs a oneway call, the cache's expiry goroutine and `Close`, and every lock. The model is sequential.
- The RPC wire format (`message` encoding, `ReadMsg`): its source is not part of this model, so a request is a datatype and no frame layout is assumed.
- The RPC client (`micro/rpc/client.go`): reflection and connection pooling. Only its writing of the call options into `Meta` is modelled (`RpcMeta.MetaOf`).
- The gzip compressor: a wrapper over a library.
- OrmExpr.Value: a Go `any` argument is an int, a string, a bool or an Expression (`Boxed`); the untyped nil is `Boxed(Nil)`. Other Go types (floats, structs, pointers) are not modelled.
- Reflection. A service is a table of methods, and `reflect.MethodByName` is a lookup in it. An unknown method name panics in the source, so `Dispatchable` is a precondition of `Invoke`.
- The JSON serializer: it is a parameter of the server's constructor with abstract encode and decode functions.
- RpcServer.Response: the error is an `RpcError` value rather than its text, and an empty error string is `None`. Nil and empty byte slices are not told apart.
- The context deadline becomes the `deadline` field of the call options. Its cancellation effect is not modelled.
- Query execution (`Get`, `GetMulti`), the `database/sql` glue, and the valuer packages' reflection and `unsafe` code.
- Model lookup for the root selector and the deleter. `model.ParseModel` of those packages is not part of this model, so `Build` takes the lookup's result as a parameter. The HW_select selector takes the registry's answer the same way.
- OrmRegistry.UnderlineName: upper case is ASCII `A`–`Z`, and `unicode.IsUpper` and `unicode.ToLower` on other letters are not modelled. The Go loop also appends `byte(c)`, which cuts every non-ASCII rune down to its low byte: "Name中" (U+4E2D) gives "name" followed by the byte 0x2D, `-`. The model copies such a character unchanged and gives "name中".
- OrmRegistry: a Go type is an abstract description (kind chain, name, fields with their `orm` tag, optional `TableName()` result) rather than a reflected type.
- HwSelect: the default branch of `buildExpression` and `buildColumns` cannot be reached. The tree datatype holds only the kinds those switches handle.
- HwSubquery.SubqueryEmit: an inner statement that built successfully but is empty would make the Go code slice out of range. That case is the precondition `Buildable`.
- HwSubquery: the other files of `orm/HW_subquery` (types, the selector, joins) are not part of this model. Their nodes become the `SExpr` and `TableRef` datatypes, and any other table reference is `OtherTable`.
- MaxMemory: the inner cache is this model's own choice: a map that removes an entry on `Delete` and `LoadAndDelete` and then fires the eviction callback. `BuildInMapCache` has no `LoadAndDelete`, so it is not such a cache. Whether the inner `Set` accepts a value is a parameter of `Set`.
- MaxMemory: the test's `mockCache` (`cache/HW_memory_limit/max_memory_cache_test.go:178-194`) fires the callback but keeps the entry. Under that mock an evicted key stays in the inner map, and a later `Get` hit lists it again without counting its size. The model does not capture that behaviour.
- MaxMemory: `used` is an unbounded integer; int64 overflow is not modelled.
- LocalCache: the clock is the parameter `now`. The callback's calls are recorded in the `evicted` sequence, which covers the default no-op callback and the option that replaces it.
- WebRouter: nodes are addressed by their segment path instead of by pointers. A nil children map and an empty one are not told apart.
- WebRouter.Router.AddRoute: an empty path is a precondition, because the source panics slicing it.
- HwSelect raw fragments: the code writes a raw fragment without parentheses (`orm/HW_select/selector.go:258-267`), while its test expects them. The model follows the code.

## Findings

| source | as written | input that shows it | evidently intended | confidence | as-written member | corrected member |
|---|---|---|---|---|---|---|
| micro/rpc/server.go:101-106, 142-147 | `Invoke` returns a nil response for a oneway call, and `handleConn` then stores the error on that response | a request to a registered service whose `Meta` has `one-way` = `true` | write no response frame for a oneway call | not executed | RpcServer.OnewayBreaksServe | RpcServer.ServeOutcome |
